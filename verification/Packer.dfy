/** The transcript packer of `scripts/session-transcripts.ts`: transcripts are joined into files of limited size, in
    order and without looking ahead. */
module Packer {
  import opened Types

  const MAX_CHARS_PER_FILE: nat := 100_000

  const SEPARATOR: string := "\n\n"

  // ----- Transcripts -----

  /** A session file and the messages extracted from it. */
  datatype SessionFile = SessionFile(name: string, messages: seq<string>)

  function Join(parts: seq<string>, separator: string): string {
    if parts == [] then ""
    else if |parts| == 1 then parts[0]
    else Join(parts[..|parts| - 1], separator) + separator + parts[|parts| - 1]
  }

  function Transcript(f: SessionFile): (t: string)
    ensures t != ""
  {
    "=== SESSION: " + f.name + " ===\n" + Join(f.messages, "\n---\n") + "\n=== END SESSION ==="
  }

  /** A transcript for every session that has messages. */
  function Transcripts(sessions: seq<SessionFile>): (ts: seq<string>)
    ensures NoneEmpty(ts)
  {
    if sessions == [] then []
    else
      var f := sessions[|sessions| - 1];
      Transcripts(sessions[..|sessions| - 1]) + if |f.messages| > 0 then [Transcript(f)] else []
  }

  predicate NoneEmpty(ts: seq<string>) {
    forall k :: 0 <= k < |ts| ==> ts[k] != ""
  }

  // ----- Packing -----

  /** The transcripts of one file, and what is written to it. */
  type Group = seq<string>

  function Content(g: Group): string {
    Join(g, SEPARATOR)
  }

  predicate Oversized(t: string) {
    |t| > MAX_CHARS_PER_FILE
  }

  predicate Exceeds(open: Group, t: string) {
    |Content(open)| + |t| + 2 > MAX_CHARS_PER_FILE
  }

  /** The files written, and the one still open. */
  datatype Packing = Packing(files: seq<Group>, open: Group)

  function Flush(p: Packing): Packing {
    if p.open == [] then p else Packing(p.files + [p.open], [])
  }

  function Place(p: Packing, t: string): Packing {
    var p' := if p.open != [] && Exceeds(p.open, t) then Flush(p) else p;
    if Oversized(t) then Packing(Flush(p').files + [[t]], []) else Packing(p'.files, p'.open + [t])
  }

  function PlaceAll(ts: seq<string>): Packing {
    if ts == [] then Packing([], []) else Place(PlaceAll(ts[..|ts| - 1]), ts[|ts| - 1])
  }

  /** The groups of transcripts that become files. */
  function Files(ts: seq<string>): seq<Group> {
    Flush(PlaceAll(ts)).files
  }

  // ----- File names -----

  const DIGITS: string := "0123456789"

  function Decimal(n: nat): (s: string)
    ensures s != "" && forall k :: 0 <= k < |s| ==> s[k] in DIGITS
  {
    if n < 10 then [DIGITS[n]] else Decimal(n / 10) + [DIGITS[n % 10]]
  }

  function PadStart(s: string, width: nat): (r: string)
    ensures |r| == if |s| < width then width else |s|
    decreases width - |s|
  {
    if |s| < width then PadStart("0" + s, width) else s
  }

  function FileName(index: nat): string {
    "session-transcripts-" + PadStart(Decimal(index), 3) + ".txt"
  }

  function DigitValue(c: char): nat {
    if '0' <= c <= '9' then (c as int) - ('0' as int) else 0
  }

  /** The number that a sequence of digits stands for. */
  function Number(s: string): nat {
    if s == "" then 0 else Number(s[..|s| - 1]) * 10 + DigitValue(s[|s| - 1])
  }

  lemma {:induction false} DecimalIsNumber(n: nat)
    ensures Number(Decimal(n)) == n
  {
    if n < 10 {
      assert [DIGITS[n]][..0] == "";
    } else {
      DecimalIsNumber(n / 10);
      assert (Decimal(n / 10) + [DIGITS[n % 10]])[..|Decimal(n / 10)|] == Decimal(n / 10);
    }
  }

  lemma {:induction false} LeadingZero(s: string)
    ensures Number("0" + s) == Number(s)
  {
    if s == "" {
      assert "0" + s == "0" && "0"[..0] == "";
    } else {
      LeadingZero(s[..|s| - 1]);
      assert ("0" + s)[..|s|] == "0" + s[..|s| - 1];
    }
  }

  lemma {:induction false} PaddingIsIgnored(s: string, width: nat)
    ensures Number(PadStart(s, width)) == Number(s)
    decreases width - |s|
  {
    if |s| < width {
      PaddingIsIgnored("0" + s, width);
      LeadingZero(s);
    }
  }

  /** No file is written twice: different indices give different names, also beyond the padding. */
  lemma NamesAreDistinct(i: nat, j: nat)
    ensures FileName(i) == FileName(j) <==> i == j
  {
    hide PadStart, Decimal, Number;
    if FileName(i) == FileName(j) {
      var a, b := PadStart(Decimal(i), 3), PadStart(Decimal(j), 3);
      assert FileName(i)[20..][..|a|] == a && FileName(j)[20..][..|b|] == b;
      PaddingIsIgnored(Decimal(i), 3);
      PaddingIsIgnored(Decimal(j), 3);
      DecimalIsNumber(i);
      DecimalIsNumber(j);
    }
  }

  // ----- The loop -----

  /** The output directory. */
  class Directory {
    var files: map<string, string>

    constructor ()
      ensures files == map[]
    {
      files := map[];
    }

    method WriteFile(name: string, content: string)
      modifies this
      ensures files == old(files)[name := content]
    {
      files := files[name := content];
    }
  }

  function Names(n: nat): (names: seq<string>)
    ensures |names| == n && forall k :: 0 <= k < n ==> names[k] == FileName(k)
  {
    if n == 0 then [] else Names(n - 1) + [FileName(n - 1)]
  }

  /** What is on disk when the groups have been written to files numbered from zero. */
  function Written(before: map<string, string>, groups: seq<Group>): map<string, string> {
    if groups == [] then before
    else
      var n := |groups| - 1;
      Written(before, groups[..n])[FileName(n) := Content(groups[n])]
  }

  lemma WrittenSnoc(before: map<string, string>, groups: seq<Group>, g: Group)
    ensures Written(before, groups + [g]) == Written(before, groups)[FileName(|groups|) := Content(g)]
    ensures Names(|groups| + 1) == Names(|groups|) + [FileName(|groups|)]
  {
    hide FileName, Content;
    assert (groups + [g])[..|groups|] == groups;
  }

  method CollectTranscripts(sessions: seq<SessionFile>) returns (allTranscripts: seq<string>)
    ensures allTranscripts == Transcripts(sessions)
  {
    allTranscripts := [];
    for k := 0 to |sessions|
      invariant allTranscripts == Transcripts(sessions[..k])
    {
      assert sessions[..k + 1][..k] == sessions[..k];
      if |sessions[k].messages| > 0 {
        allTranscripts := allTranscripts + [Transcript(sessions[k])];
      }
    }
    assert sessions[..|sessions|] == sessions;
  }

  lemma ContentSnoc(g: Group, t: string)
    ensures Content(g + [t]) == Content(g) + (if g != [] then SEPARATOR else "") + t
    ensures Content([]) == "" && Content([t]) == t
  {
    assert (g + [t])[..|g|] == g;
    if g == [] {
      assert g + [t] == [t];
    }
  }

  lemma ContentIsEmpty(g: Group)
    requires NoneEmpty(g)
    ensures Content(g) == "" <==> g == []
  {
    if g != [] {
      var front, t := g[..|g| - 1], g[|g| - 1];
      assert front + [t] == g;
      ContentSnoc(front, t);
    }
  }

  lemma {:induction false} PlacedAreNotEmpty(ts: seq<string>)
    requires NoneEmpty(ts)
    ensures NoneEmpty(PlaceAll(ts).open)
  {
    if ts != [] {
      PlacedAreNotEmpty(ts[..|ts| - 1]);
    }
  }

  lemma PlaceSnoc(ts: seq<string>, t: string)
    ensures PlaceAll(ts + [t]) == Place(PlaceAll(ts), t)
  {
    hide Place;
    assert (ts + [t])[..|ts|] == ts;
  }

  /** The packing loop. The second place where pending content would be written is never reached: content that a
      transcript above the limit finds pending is already written. */
  method SplitIntoFiles(allTranscripts: seq<string>, dir: Directory) returns (outputFiles: seq<string>)
    requires NoneEmpty(allTranscripts)
    modifies dir
    ensures outputFiles == Names(|Files(allTranscripts)|)
    ensures dir.files == Written(old(dir.files), Files(allTranscripts))
  {
    hide Content, FileName, Transcripts, Written, Names, PlaceAll, Place;
    outputFiles := [];
    var currentContent := "";
    var fileIndex := 0;
    ghost var groups: seq<Group>, open: Group := [], [];
    Beginning(old(dir.files));
    for k := 0 to |allTranscripts|
      invariant PlaceAll(allTranscripts[..k]) == Packing(groups, open)
      invariant NoneEmpty(open)
      invariant currentContent == Content(open) && fileIndex == |groups|
      invariant outputFiles == Names(|groups|) && dir.files == Written(old(dir.files), groups)
    {
      var transcript := allTranscripts[k];
      assert allTranscripts[..k + 1] == allTranscripts[..k] + [transcript];
      PlaceSnoc(allTranscripts[..k], transcript);
      ContentIsEmpty(open);
      PlaceCases(Packing(groups, open), transcript);
      if |currentContent| > 0 && |currentContent| + |transcript| + 2 > MAX_CHARS_PER_FILE {
        WrittenSnoc(old(dir.files), groups, open);
        var filename := FileName(fileIndex);
        dir.WriteFile(filename, currentContent);
        outputFiles := outputFiles + [filename];
        currentContent := "";
        fileIndex := fileIndex + 1;
        groups, open := groups + [open], [];
      }
      if |transcript| > MAX_CHARS_PER_FILE {
        if |currentContent| > 0 {
          assert false;
        }
        ContentSnoc([], transcript);
        WrittenSnoc(old(dir.files), groups, [transcript]);
        var filename := FileName(fileIndex);
        dir.WriteFile(filename, transcript);
        outputFiles := outputFiles + [filename];
        fileIndex := fileIndex + 1;
        groups, open := groups + [[transcript]], [];
        ContentIsEmpty([]);
        continue;
      }
      ContentSnoc(open, transcript);
      currentContent := currentContent + (if |currentContent| > 0 then SEPARATOR else "") + transcript;
      open := open + [transcript];
    }
    assert allTranscripts[..|allTranscripts|] == allTranscripts;
    ContentIsEmpty(open);
    if |currentContent| > 0 {
      WrittenSnoc(old(dir.files), groups, open);
      var filename := FileName(fileIndex);
      dir.WriteFile(filename, currentContent);
      outputFiles := outputFiles + [filename];
    }
  }

  lemma Beginning(before: map<string, string>)
    ensures PlaceAll([]) == Packing([], []) && Content([]) == "" && Names(0) == [] && Written(before, []) == before
  {
  }

  lemma PlaceCases(p: Packing, t: string)
    ensures var full := p.open != [] && Exceeds(p.open, t);
            Place(p, t)
            == if full && Oversized(t) then Packing(p.files + [p.open] + [[t]], [])
               else if full then Packing(p.files + [p.open], [t])
               else if Oversized(t) then Packing(p.files + [[t]], [])
               else Packing(p.files, p.open + [t])
  {
    assert [] + [t] == [t];
  }

  /** The whole script, up to the analysis: nothing is written if there is nothing to write. */
  method WriteTranscripts(sessions: seq<SessionFile>, dir: Directory) returns (outputFiles: Attempt<seq<string>>)
    modifies dir
    ensures outputFiles.Threw? <==> Transcripts(sessions) == []
    ensures outputFiles.Threw? ==> dir.files == old(dir.files)
    ensures outputFiles.Returned? ==>
              var groups := Files(Transcripts(sessions));
              && outputFiles.value == Names(|groups|)
              && dir.files == Written(old(dir.files), groups)
  {
    var allTranscripts := CollectTranscripts(sessions);
    if |allTranscripts| == 0 {
      return Threw("No transcripts found");
    }
    var names := SplitIntoFiles(allTranscripts, dir);
    outputFiles := Returned(names);
  }
}
