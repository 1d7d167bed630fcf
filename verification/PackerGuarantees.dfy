/** The files that the packer makes: complete, within the limit, and as few as can be. */
module PackerGuarantees {
  import opened Types
  import opened Packer

  function Flatten(groups: seq<Group>): seq<string> {
    if groups == [] then [] else Flatten(groups[..|groups| - 1]) + groups[|groups| - 1]
  }

  lemma FlattenSnoc(groups: seq<Group>, g: Group)
    ensures Flatten(groups + [g]) == Flatten(groups) + g
  {
    assert (groups + [g])[..|groups|] == groups;
  }

  /** A file within the limit, or a single transcript that is above it. */
  predicate Fits(g: Group) {
    |Content(g)| <= MAX_CHARS_PER_FILE || (|g| == 1 && Oversized(g[0]))
  }

  predicate AllFit(groups: seq<Group>) {
    forall k :: 0 <= k < |groups| ==> Fits(groups[k])
  }

  /** Each file had no room for the first transcript of the next. */
  predicate Tight(groups: seq<Group>) {
    && (forall k :: 0 <= k < |groups| ==> groups[k] != [])
    && forall k :: 0 < k < |groups| ==> Exceeds(groups[k - 1], groups[k][0])
  }

  // ----- What the packer keeps -----

  /** The transcripts so far, in order; the open group fits, and did not fit behind the files written. */
  ghost predicate Sound(ts: seq<string>, p: Packing) {
    && Flatten(Flush(p).files) == ts
    && AllFit(Flush(p).files) && Tight(Flush(p).files)
    && (p.open != [] ==> |Content(p.open)| <= MAX_CHARS_PER_FILE)
    && (p.open == [] && p.files != [] ==>
          var last := p.files[|p.files| - 1]; |last| == 1 && Oversized(last[0]))
  }

  lemma ExceedsOversized(g: Group, t: string)
    requires |g| == 1 && Oversized(g[0])
    ensures Exceeds(g, t)
  {
    ContentSnoc([], g[0]);
    assert [g[0]] == g;
  }

  lemma TightSnoc(groups: seq<Group>, g: Group)
    requires g != []
    requires groups == [] || Exceeds(groups[|groups| - 1], g[0])
    ensures Tight(groups + [g]) <==> Tight(groups)
  {
    hide Exceeds;
    var all := groups + [g];
    assert forall k :: 0 <= k < |groups| ==> all[k] == groups[k];
    assert all[|groups|] == g;
  }

  lemma TightGrow(groups: seq<Group>, g: Group, t: string)
    requires g != []
    ensures Tight(groups + [g]) <==> Tight(groups + [g + [t]])
  {
    hide Exceeds;
    var a, b := groups + [g], groups + [g + [t]];
    assert forall k :: 0 <= k < |groups| ==> a[k] == b[k];
    assert a[|groups|] == g && b[|groups|] == g + [t] && g[0] == (g + [t])[0];
  }

  lemma AllFitSnoc(groups: seq<Group>, g: Group)
    ensures AllFit(groups + [g]) <==> AllFit(groups) && Fits(g)
  {
    hide Fits;
    var all := groups + [g];
    assert forall k :: 0 <= k < |groups| ==> all[k] == groups[k];
    assert all[|groups|] == g;
  }

  /** A new file behind those written. */
  lemma NewFile(files: seq<Group>, t: string)
    requires AllFit(files) && Tight(files) && (files == [] || Exceeds(files[|files| - 1], t))
    ensures AllFit(files + [[t]]) && Tight(files + [[t]]) && Flatten(files + [[t]]) == Flatten(files) + [t]
  {
    hide AllFit, Tight, Flatten, Content;
    ContentSnoc([], t);
    AllFitSnoc(files, [t]);
    TightSnoc(files, [t]);
    FlattenSnoc(files, [t]);
  }

  lemma PlaceKeepsSound(ts: seq<string>, p: Packing, t: string)
    requires Sound(ts, p)
    ensures Sound(ts + [t], Place(p, t))
  {
    hide AllFit, Tight, Flatten, Content, Place, Exceeds;
    PlaceCases(p, t);
    var files := Flush(p).files;
    if Oversized(t) || p.open == [] || Exceeds(p.open, t) {
      if p.open == [] && p.files != [] {
        ExceedsOversized(p.files[|p.files| - 1], t);
      }
      TooLong(p.open, t);
      NewFile(files, t);
      ContentSnoc([], t);
      assert [] + [t] == [t];
    } else {
      ContentSnoc(p.open, t);
      AllFitSnoc(p.files, p.open);
      AllFitSnoc(p.files, p.open + [t]);
      RoomFor(p.open, t);
      TightGrow(p.files, p.open, t);
      FlattenSnoc(p.files, p.open);
      FlattenSnoc(p.files, p.open + [t]);
      Associate(Flatten(p.files), p.open, [t]);
    }
  }

  lemma TooLong(g: Group, t: string)
    ensures Oversized(t) ==> Exceeds(g, t)
  {
  }

  lemma RoomFor(g: Group, t: string)
    requires !Exceeds(g, t)
    ensures |Content(g + [t])| <= MAX_CHARS_PER_FILE
  {
    ContentSnoc(g, t);
  }

  lemma {:induction false} PlaceAllIsSound(ts: seq<string>)
    ensures Sound(ts, PlaceAll(ts))
  {
    hide Sound, Place;
    if ts == [] {
      NothingIsSound();
    } else {
      var front, t := ts[..|ts| - 1], ts[|ts| - 1];
      PlaceAllIsSound(front);
      PlaceKeepsSound(front, PlaceAll(front), t);
      assert front + [t] == ts;
    }
  }

  lemma NothingIsSound()
    ensures Sound([], PlaceAll([]))
  {
  }

  /** Conservation: the files hold all transcripts, once each and in order; each is within the limit or a single
      transcript above it; and none could have taken the first transcript of the next. */
  lemma PackingConserves(ts: seq<string>)
    ensures Flatten(Files(ts)) == ts && AllFit(Files(ts)) && Tight(Files(ts))
  {
    hide AllFit, Tight, Flatten, PlaceAll;
    PlaceAllIsSound(ts);
  }

  // ----- How much is in the files -----

  function Total(groups: seq<Group>): nat {
    if groups == [] then 0 else Total(groups[..|groups| - 1]) + |Content(groups[|groups| - 1])|
  }

  lemma {:induction false} ContentStarts(g: Group)
    requires g != []
    ensures |Content(g)| >= |g[0]|
  {
    var front, t := g[..|g| - 1], g[|g| - 1];
    assert front + [t] == g;
    ContentSnoc(front, t);
    if front != [] {
      ContentStarts(front);
    }
  }

  /** Adjacent files would not fit into one. */
  lemma AdjacentFilesExceed(groups: seq<Group>, k: nat)
    requires Tight(groups) && k + 1 < |groups|
    ensures |Content(groups[k])| + 2 + |Content(groups[k + 1])| > MAX_CHARS_PER_FILE
  {
    hide Content;
    assert Exceeds(groups[k + 1 - 1], groups[k + 1][0]);
    ContentStarts(groups[k + 1]);
  }

  /** Hence on average the files are at least half full. */
  lemma {:induction false} FilesAreHalfFull(groups: seq<Group>)
    requires Tight(groups)
    ensures |groups| / 2 * (MAX_CHARS_PER_FILE - 1) <= Total(groups)
    decreases |groups|
  {
    hide Content, Exceeds;
    if |groups| >= 2 {
      var n := |groups|;
      FilesAreHalfFull(groups[..n - 2]);
      AdjacentFilesExceed(groups, n - 2);
      assert groups[..n - 1][..n - 2] == groups[..n - 2];
      assert n / 2 == (n - 2) / 2 + 1;
    }
  }

  /** The bound on the number of files. */
  lemma FewFiles(ts: seq<string>)
    ensures |Files(ts)| / 2 * (MAX_CHARS_PER_FILE - 1) <= Total(Files(ts))
  {
    hide Tight, Files, Total, AllFit;
    PackingConserves(ts);
    FilesAreHalfFull(Files(ts));
  }

  // ----- Optimality -----

  /** The content of the last `n` transcripts. */
  function Last(ts: seq<string>, n: nat): Group
    requires n <= |ts|
  {
    ts[|ts| - n..]
  }

  lemma {:induction false} PrependedContent(t: string, g: Group)
    ensures |Content([t] + g)| >= |Content(g)|
  {
    if g == [] {
      ContentSnoc([], t);
    } else {
      var front, u := g[..|g| - 1], g[|g| - 1];
      PrependedContent(t, front);
      assert [t] + g == ([t] + front) + [u] && front + [u] == g;
      ContentSnoc([t] + front, u);
      ContentSnoc(front, u);
    }
  }

  /** More transcripts from the end make more content. */
  lemma {:induction false} LongerSuffix(ts: seq<string>, a: nat, b: nat)
    requires a <= b <= |ts|
    ensures |Content(Last(ts, a))| <= |Content(Last(ts, b))|
    decreases b - a
  {
    hide Content;
    if a < b {
      LongerSuffix(ts, a, b - 1);
      PrependedContent(ts[|ts| - b], Last(ts, b - 1));
      assert [ts[|ts| - b]] + Last(ts, b - 1) == Last(ts, b);
    }
  }

  lemma {:induction false} LastGroupIsSuffix(groups: seq<Group>)
    requires groups != []
    ensures var g := groups[|groups| - 1];
            |g| <= |Flatten(groups)| && Last(Flatten(groups), |g|) == g
  {
  }

  /** Greedy stays ahead: it has no more files than the other grouping, and if it has as many, then no more transcripts
      in the open one than the other has in its last. */
  ghost predicate Ahead(p: Packing, groups: seq<Group>) {
    var files := Flush(p).files;
    && |files| <= |groups|
    && (|files| == |groups| && groups != [] ==> |p.open| <= |groups[|groups| - 1]|)
  }

  /** The other grouping without its last transcript. */
  lemma Shortened(groups: seq<Group>, h: Group, t: string)
    requires AllFit(groups + [h + [t]])
    ensures AllFit(groups) && AllFit(groups + [h])
    ensures Flatten(groups + [h + [t]]) == Flatten(groups + [h]) + [t]
    ensures h != [] ==> !Oversized(h[|h| - 1]) && |Content(h + [t])| <= MAX_CHARS_PER_FILE
  {
    hide AllFit, Flatten, Content;
    AllFitSnoc(groups, h + [t]);
    AllFitSnoc(groups, h);
    ContentSnoc(h, t);
    FlattenSnoc(groups, h + [t]);
    FlattenSnoc(groups, h);
    Associate(Flatten(groups), h, [t]);
    if h != [] {
      var front, u := h[..|h| - 1], h[|h| - 1];
      assert front + [u] == h;
      ContentSnoc(front, u);
    }
  }

  /** Where the other grouping has room behind `h`, the packer has room behind an open group that is no longer. */
  lemma RoomBehindShorter(ts: seq<string>, open: Group, h: Group, t: string)
    requires |open| <= |h| <= |ts| && Last(ts, |open|) == open && Last(ts, |h|) == h
    requires h != [] && |Content(h + [t])| <= MAX_CHARS_PER_FILE
    ensures !Exceeds(open, t)
  {
    hide Content;
    LongerSuffix(ts, |open|, |h|);
    ContentSnoc(h, t);
  }

  lemma OpenIsSuffix(ts: seq<string>)
    ensures var p := PlaceAll(ts); |p.open| <= |ts| && Last(ts, |p.open|) == p.open
  {
    hide AllFit, Tight, Content, PlaceAll, Flatten;
    PlaceAllIsSound(ts);
    var p := PlaceAll(ts);
    if p.open != [] {
      LastGroupIsSuffix(Flush(p).files);
    }
  }

  /** If the packer has no open group, the last transcript was above the limit. */
  lemma ClosedByOversized(ts: seq<string>)
    requires ts != [] && PlaceAll(ts).open == []
    ensures Oversized(ts[|ts| - 1])
  {
    hide Exceeds;
  }

  /** One transcript more, which the other grouping has in its last group, behind `h`. */
  lemma StaysAhead(ts: seq<string>, groups: seq<Group>, h: Group, t: string)
    requires AllFit(groups + [h + [t]]) && Flatten(groups + [h]) == ts
    requires if h == [] then Ahead(PlaceAll(ts), groups) else Ahead(PlaceAll(ts), groups + [h])
    ensures Ahead(Place(PlaceAll(ts), t), groups + [h + [t]])
  {
    hide AllFit, Flatten, Content, Exceeds, Place, PlaceAll;
    var p := PlaceAll(ts);
    PlaceCases(p, t);
    Shortened(groups, h, t);
    assert (groups + [h + [t]])[|groups|] == h + [t];
    if h != [] {
      LastGroupIsSuffix(groups + [h]);
      assert (groups + [h])[|groups|] == h;
      OpenIsSuffix(ts);
      assert ts[|ts| - 1] == h[|h| - 1];
      TooLong(p.open, t);
      if p.open == [] {
        ClosedByOversized(ts);
      } else if |p.open| <= |h| {
        RoomBehindShorter(ts, p.open, h, t);
      }
    }
  }

  lemma {:induction false} GreedyIsAhead(ts: seq<string>, groups: seq<Group>)
    requires Flatten(groups) == ts && AllFit(groups)
    ensures Ahead(PlaceAll(ts), groups)
    decreases |groups|, |ts|
  {
    hide AllFit, Place, Ahead;
    if groups == [] {
      NothingIsAhead([]);
    } else {
      var front, g := groups[..|groups| - 1], groups[|groups| - 1];
      assert front + [g] == groups;
      FlattenSnoc(front, g);
      AllFitSnoc(front, g);
      if g == [] {
        assert Flatten(front) + [] == Flatten(front);
        GreedyIsAhead(ts, front);
        OneGroupMore(PlaceAll(ts), front);
      } else {
        var h, t := g[..|g| - 1], g[|g| - 1];
        assert h + [t] == g;
        Shortened(front, h, t);
        var ts' := Flatten(front + [h]);
        assert ts == ts' + [t];
        FlattenSnoc(front, h);
        if h == [] {
          assert Flatten(front) + [] == Flatten(front);
          GreedyIsAhead(ts', front);
        } else {
          GreedyIsAhead(ts', front + [h]);
        }
        PlaceSnoc(ts', t);
        StaysAhead(ts', front, h, t);
      }
    }
  }

  lemma NothingIsAhead(groups: seq<Group>)
    ensures Ahead(PlaceAll([]), groups)
  {
  }

  lemma OneGroupMore(p: Packing, groups: seq<Group>)
    requires Ahead(p, groups)
    ensures Ahead(p, groups + [[]])
  {
  }

  /** Packing is optimal: no way to group the same transcripts in order, with each file within the limit or a single
      transcript above it, has fewer files. */
  lemma PackingIsOptimal(ts: seq<string>, groups: seq<Group>)
    requires Flatten(groups) == ts && AllFit(groups)
    ensures |Files(ts)| <= |groups|
  {
    hide Flatten, AllFit, PlaceAll;
    GreedyIsAhead(ts, groups);
  }

  // ----- On disk -----

  /** Each file named is on disk, under a name of its own, and holds its group. */
  lemma {:induction false} EveryFileIsOnDisk(before: map<string, string>, groups: seq<Group>, k: nat)
    requires k < |groups|
    ensures FileName(k) in Written(before, groups) && Written(before, groups)[FileName(k)] == Content(groups[k])
  {
    hide FileName, Content;
    var n := |groups| - 1;
    if k < n {
      EveryFileIsOnDisk(before, groups[..n], k);
      NamesAreDistinct(k, n);
    }
  }

  // ----- What is in the files -----

  /** The part is somewhere in the text, as it stands. */
  ghost predicate Occurs(part: string, text: string) {
    exists before, after :: text == before + part + after
  }

  lemma OccursWithin(part: string, a: string, text: string, b: string)
    requires Occurs(part, text)
    ensures Occurs(part, a + text + b)
  {
    var before, after :| text == before + part + after;
    assert a + text + b == (a + before) + part + (after + b);
  }

  lemma OccursItself(text: string)
    ensures Occurs(text, text)
  {
    assert text == "" + text + "";
  }

  lemma {:induction false} PartOccurs(parts: seq<string>, separator: string, k: nat)
    requires k < |parts|
    ensures Occurs(parts[k], Join(parts, separator))
  {
    var n := |parts| - 1;
    if n == 0 {
      OccursItself(parts[0]);
    } else if k < n {
      PartOccurs(parts[..n], separator, k);
      var joined := Join(parts[..n], separator);
      OccursWithin(parts[k], "", joined, separator + parts[n]);
      assert "" + joined + (separator + parts[n]) == joined + separator + parts[n];
    } else {
      OccursItself(parts[n]);
      OccursWithin(parts[n], Join(parts[..n], separator) + separator, parts[n], "");
      assert Join(parts, separator) + "" == Join(parts, separator);
    }
  }

  /** Neighbours are kept apart by the separator and nothing else. */
  lemma {:induction false} NeighboursOccur(parts: seq<string>, separator: string, k: nat)
    requires k + 1 < |parts|
    ensures Occurs(parts[k] + separator + parts[k + 1], Join(parts, separator))
  {
    hide Occurs;
    var n := |parts| - 1;
    var front, joined := parts[..n], Join(parts[..n], separator);
    if k + 1 < n {
      NeighboursOccur(front, separator, k);
      OccursWithin(parts[k] + separator + parts[k + 1], "", joined, separator + parts[n]);
      assert "" + joined + (separator + parts[n]) == joined + separator + parts[n];
    } else if n == 1 {
      assert joined == parts[0];
      OccursItself(parts[0] + separator + parts[1]);
    } else {
      var head := Join(parts[..n - 1], separator) + separator;
      assert front[..n - 1] == parts[..n - 1];
      assert joined == head + parts[k];
      OccursItself(parts[k] + separator + parts[n]);
      OccursWithin(parts[k] + separator + parts[n], head, parts[k] + separator + parts[n], "");
      assert head + (parts[k] + separator + parts[n]) + "" == joined + separator + parts[n];
    }
  }

  /** Two transcripts that share a file stand next to each other with an empty line between them, and nothing else. */
  lemma TranscriptsAreKeptApart(groups: seq<Group>, k: nat, i: nat)
    requires k < |groups| && i + 1 < |groups[k]|
    ensures Occurs(groups[k][i] + "\n\n" + groups[k][i + 1], Content(groups[k]))
  {
    NeighboursOccur(groups[k], "\n\n", i);
  }

  /** The transcript of a session: its name in the first line, and then its messages. */
  lemma TranscriptHolds(f: SessionFile, k: nat)
    requires k < |f.messages|
    ensures "=== SESSION: " + f.name + " ===\n" <= Transcript(f)
    ensures Occurs(f.messages[k], Transcript(f))
    ensures k + 1 < |f.messages| ==> Occurs(f.messages[k] + "\n---\n" + f.messages[k + 1], Transcript(f))
    ensures Occurs("\n=== END SESSION ===", Transcript(f))
  {
    hide Join;
    var head, body, foot := "=== SESSION: " + f.name + " ===\n", Join(f.messages, "\n---\n"), "\n=== END SESSION ===";
    PartOccurs(f.messages, "\n---\n", k);
    OccursWithin(f.messages[k], head, body, foot);
    if k + 1 < |f.messages| {
      NeighboursOccur(f.messages, "\n---\n", k);
      OccursWithin(f.messages[k] + "\n---\n" + f.messages[k + 1], head, body, foot);
    }
    OccursItself(foot);
    OccursWithin(foot, head + body, foot, "");
    assert (head + body) + foot + "" == head + body + foot;
  }

  lemma {:induction false} TranscriptIsThere(sessions: seq<SessionFile>, j: nat) returns (t: nat)
    requires j < |sessions| && sessions[j].messages != []
    ensures t < |Transcripts(sessions)| && Transcripts(sessions)[t] == Transcript(sessions[j])
  {
    hide Transcript;
    var n := |sessions| - 1;
    if j < n {
      t := TranscriptIsThere(sessions[..n], j);
    } else {
      t := |Transcripts(sessions[..n])|;
    }
  }

  /** The sessions that the transcripts are of: all that have messages and no others, in order. */
  ghost predicate AreOf(ts: seq<string>, sessions: seq<SessionFile>, js: seq<nat>) {
    && |js| == |ts|
    && (forall t :: 0 <= t < |js| ==>
          js[t] < |sessions| && sessions[js[t]].messages != [] && ts[t] == Transcript(sessions[js[t]]))
    && (forall t, u :: 0 <= t < u < |js| ==> js[t] < js[u])
    && (forall j: nat :: j < |sessions| && sessions[j].messages != [] ==> j in js)
  }

  lemma OneSessionMore(ts: seq<string>, sessions: seq<SessionFile>, f: SessionFile, js: seq<nat>)
    requires AreOf(ts, sessions, js)
    ensures f.messages == [] ==> AreOf(ts, sessions + [f], js)
    ensures f.messages != [] ==> AreOf(ts + [Transcript(f)], sessions + [f], js + [|sessions|])
  {
    hide Transcript;
    var more := js + [|sessions|];
    assert forall j :: j in js ==> j in more;
    assert more[|js|] == |sessions|;
  }

  lemma {:induction false} TranscriptsAreOf(sessions: seq<SessionFile>) returns (js: seq<nat>)
    ensures AreOf(Transcripts(sessions), sessions, js)
  {
    hide Transcript;
    if sessions == [] {
      js := [];
    } else {
      var n := |sessions| - 1;
      js := TranscriptsAreOf(sessions[..n]);
      OneSessionMore(Transcripts(sessions[..n]), sessions[..n], sessions[n], js);
      assert sessions[..n] + [sessions[n]] == sessions;
      hide AreOf;
      if sessions[n].messages != [] {
        js := js + [n];
      }
    }
  }

  lemma {:induction false} InSomeGroup(groups: seq<Group>, t: string) returns (k: nat, i: nat)
    requires t in Flatten(groups)
    ensures k < |groups| && i < |groups[k]| && groups[k][i] == t
  {
    var n := |groups| - 1;
    if t in groups[n] {
      k := n;
      i :| i < |groups[n]| && groups[n][i] == t;
    } else {
      k, i := InSomeGroup(groups[..n], t);
    }
  }

  /** Every message of every session is in one of the files, as it stands, behind the name of its session and kept apart
      from the next one. */
  lemma EveryMessageIsWritten(sessions: seq<SessionFile>, j: nat, m: nat) returns (k: nat)
    requires j < |sessions| && m < |sessions[j].messages|
    ensures var files, f := Files(Transcripts(sessions)), sessions[j];
            && k < |files|
            && Occurs(Transcript(f), Content(files[k]))
            && Occurs(f.messages[m], Content(files[k]))
            && (m + 1 < |f.messages| ==> Occurs(f.messages[m] + "\n---\n" + f.messages[m + 1], Content(files[k])))
            && "=== SESSION: " + f.name + " ===\n" <= Transcript(f)
  {
    hide Transcript, Transcripts, Join, Flatten, PlaceAll, Occurs, AllFit, Tight, Files;
    var t := TranscriptIsThere(sessions, j);
    var ts, f := Transcripts(sessions), sessions[j];
    PackingConserves(ts);
    assert ts[t] in ts;
    var i;
    k, i := InSomeGroup(Files(ts), ts[t]);
    PartOccurs(Files(ts)[k], SEPARATOR, i);
    TranscriptHolds(f, m);
    OccursIn(f.messages[m], Transcript(f), Content(Files(ts)[k]));
    if m + 1 < |f.messages| {
      OccursIn(f.messages[m] + "\n---\n" + f.messages[m + 1], Transcript(f), Content(Files(ts)[k]));
    }
  }

  lemma OccursIn(a: string, b: string, c: string)
    requires Occurs(a, b) && Occurs(b, c)
    ensures Occurs(a, c)
  {
    hide Occurs;
    var before, after := Around(b, c);
    OccursWithin(a, before, b, after);
  }

  lemma Around(part: string, text: string) returns (before: string, after: string)
    requires Occurs(part, text)
    ensures text == before + part + after
  {
    before, after :| text == before + part + after;
  }

  /** The first thousand files have numbers of three digits. */
  lemma ThreeDigits(a: nat, b: nat, c: nat)
    requires a < 10 && b < 10 && c < 10
    ensures FileName(100 * a + 10 * b + c)
         == "session-transcripts-" + [DIGITS[a], DIGITS[b], DIGITS[c]] + ".txt"
  {
    var n := 100 * a + 10 * b + c;
    assert n / 10 == 10 * a + b && n % 10 == c && (n / 10) / 10 == a && (n / 10) % 10 == b;
    DecimalOfThree(n, a, b, c);
  }

  lemma DecimalOfThree(n: nat, a: nat, b: nat, c: nat)
    requires a < 10 && b < 10 && c < 10 && n == 100 * a + 10 * b + c
    requires n / 10 == 10 * a + b && n % 10 == c && (n / 10) / 10 == a && (n / 10) % 10 == b
    ensures PadStart(Decimal(n), 3) == [DIGITS[a], DIGITS[b], DIGITS[c]]
  {
    if a > 0 {
      assert Decimal(a) == [DIGITS[a]];
      assert Decimal(n / 10) == [DIGITS[a]] + [DIGITS[b]];
      assert Decimal(n) == [DIGITS[a]] + [DIGITS[b]] + [DIGITS[c]];
    } else if b > 0 {
      assert Decimal(n / 10) == [DIGITS[b]];
      assert Decimal(n) == [DIGITS[b]] + [DIGITS[c]];
      assert PadStart(Decimal(n), 3) == "0" + Decimal(n);
    } else {
      assert Decimal(n) == [DIGITS[c]];
      assert PadStart("0" + ("0" + Decimal(n)), 3) == "0" + ("0" + Decimal(n));
      assert PadStart(Decimal(n), 3) == "0" + ("0" + Decimal(n));
    }
  }
}
