/**
 The chunked substring scan of one file in the privacy check of the recovery smoke harness
 (scripts/llm_guard_proxy_loop_recovery_smoke.py). A file is read in pieces of any size; for every
 marker the last |marker| - 1 bytes are carried over to the next piece.
 */
module MarkerScan {
  import opened Foundations

  const SCAN_CHUNK_SIZE: nat := 65536

  predicate OccursAt(m: Bytes, s: Bytes, i: int) {
    0 <= i <= i + |m| <= |s| && s[i..i + |m|] == m
  }

  ghost predicate Occurs(m: Bytes, s: Bytes) {
    exists i :: OccursAt(m, s, i)
  }

  /** bytes.count: occurrences found from the left without overlap. */
  function Count(m: Bytes, s: Bytes): nat
    requires m != []
    decreases |s|
  {
    if |s| < |m| then 0
    else if s[..|m|] == m then 1 + Count(m, s[|m|..])
    else Count(m, s[1..])
  }

  /** The number of positions at which the marker occurs. */
  function Occurrences(m: Bytes, s: Bytes): nat
    requires m != []
    decreases |s|
  {
    if |s| < |m| then 0
    else (if s[..|m|] == m then 1 else 0) + Occurrences(m, s[1..])
  }

  /** A marker with no proper border never overlaps itself. */
  predicate Unbordered(m: Bytes) {
    forall k :: 0 < k < |m| ==> m[k..] != m[..|m| - k]
  }

  function Suffix(s: Bytes, n: nat): Bytes {
    if |s| <= n then s else s[|s| - n..]
  }

  /** What the scan adds up for one marker over the pieces read so far. */
  function ScanCount(m: Bytes, pieces: seq<Bytes>): nat
    requires m != []
  {
    if pieces == [] then 0 else
      var before := pieces[..|pieces| - 1];
      ScanCount(m, before) + Count(m, Suffix(Concat(before), |m| - 1) + pieces[|pieces| - 1])
  }

  predicate NonEmpty(markers: seq<Bytes>) {
    forall i :: 0 <= i < |markers| ==> markers[i] != []
  }

  function Sum(s: seq<nat>): nat {
    if s == [] then 0 else Sum(s[..|s| - 1]) + s[|s| - 1]
  }

  lemma {:induction false} SumLast(s: seq<nat>, last: nat)
    ensures Sum(s + [last]) == Sum(s) + last
  {
    assert (s + [last])[..|s|] == s;
  }

  lemma {:induction false} SumZero(s: seq<nat>)
    ensures Sum(s) == 0 <==> forall i :: 0 <= i < |s| ==> s[i] == 0
    decreases |s|
  {
    if s != [] {
      SumZero(s[..|s| - 1]);
    }
  }

  lemma {:induction false} SumAdds(a: seq<nat>, b: seq<nat>, c: seq<nat>)
    requires |a| == |b| == |c| && forall i :: 0 <= i < |a| ==> c[i] == a[i] + b[i]
    ensures Sum(c) == Sum(a) + Sum(b)
    decreases |a|
  {
    if a != [] {
      var n := |a| - 1;
      SumAdds(a[..n], b[..n], c[..n]);
    }
  }

  /** What the scan adds up, marker by marker. */
  function Counts(markers: seq<Bytes>, pieces: seq<Bytes>): (r: seq<nat>)
    requires NonEmpty(markers)
    ensures |r| == |markers|
  {
    seq(|markers|, i requires 0 <= i < |markers| => ScanCount(markers[i], pieces))
  }

  function AllOccurrences(markers: seq<Bytes>, s: Bytes): (r: seq<nat>)
    requires NonEmpty(markers)
    ensures |r| == |markers|
  {
    seq(|markers|, i requires 0 <= i < |markers| => Occurrences(markers[i], s))
  }

  lemma {:induction false} OccursLater(m: Bytes, s: Bytes, i: int)
    requires s != [] && i > 0
    ensures OccursAt(m, s, i) <==> OccursAt(m, s[1..], i - 1)
  {
    if i + |m| <= |s| {
      assert s[1..][i - 1..i - 1 + |m|] == s[i..i + |m|];
    }
  }

  lemma {:induction false} OccursInTail(m: Bytes, s: Bytes)
    requires s != [] && !OccursAt(m, s, 0)
    ensures Occurs(m, s) <==> Occurs(m, s[1..])
  {
    if Occurs(m, s) {
      var i :| OccursAt(m, s, i);
      OccursLater(m, s, i);
    }
    if Occurs(m, s[1..]) {
      var i :| OccursAt(m, s[1..], i);
      OccursLater(m, s, i + 1);
      assert OccursAt(m, s, i + 1);
    }
  }

  lemma {:induction false} OccurrencesZero(m: Bytes, s: Bytes)
    requires m != []
    ensures Occurrences(m, s) == 0 <==> !Occurs(m, s)
    decreases |s|
  {
    if |s| >= |m| {
      OccurrencesZero(m, s[1..]);
      if s[..|m|] == m {
        assert OccursAt(m, s, 0);
      } else {
        OccursInTail(m, s);
      }
    }
  }

  /** The number of occurrences is that of the positions at which the marker stands. */
  lemma {:induction false} OccurrencesAreCounted(m: Bytes, s: Bytes)
    requires m != []
    ensures Occurrences(m, s) == |set i: nat | i < |s| && OccursAt(m, s, i)|
    decreases |s|
  {
    var here := set i: nat | i < |s| && OccursAt(m, s, i);
    if |s| < |m| {
      assert here == {};
    } else {
      var rest := set i: nat | i < |s[1..]| && OccursAt(m, s[1..], i);
      OccurrencesAreCounted(m, s[1..]);
      var moved := Moved(rest);
      MovedSize(rest);
      forall i: nat | i > 0 ensures i in here <==> i in moved {
        OccursLater(m, s, i);
        MovedBack(rest, i);
      }
      assert s[..|m|] == m <==> OccursAt(m, s, 0);
      assert here == moved + (if s[..|m|] == m then {0} else {});
    }
  }

  function Moved(s: set<nat>): set<nat> {
    set i | i in s :: i + 1
  }

  lemma {:induction false} MovedBack(s: set<nat>, i: nat)
    requires i > 0
    ensures i in Moved(s) <==> i - 1 in s
  {
    if i - 1 in s {
      var j: nat := i - 1;
      assert j in s && j + 1 == i;
    }
  }

  lemma {:induction false} MovedSize(s: set<nat>)
    ensures |Moved(s)| == |s| && 0 !in Moved(s)
    decreases |s|
  {
    if s != {} {
      var x :| x in s;
      MovedSize(s - {x});
      forall i: nat | i > 0 ensures i in Moved(s) <==> i in Moved(s - {x}) || i == x + 1 {
        MovedBack(s, i);
        MovedBack(s - {x}, i);
      }
      assert Moved(s) == Moved(s - {x}) + {x + 1};
      MovedBack(s - {x}, x + 1);
    }
  }

  /** Counting without overlap misses a marker only when there is none. */
  lemma {:induction false} CountZero(m: Bytes, s: Bytes)
    requires m != []
    ensures Count(m, s) == 0 <==> Occurrences(m, s) == 0
    decreases |s|
  {
    if |s| >= |m| && s[..|m|] != m {
      CountZero(m, s[1..]);
    }
  }

  /** The positions in p + c are those in p, and those in the carried tail followed by c. */
  lemma {:induction false} OccurrencesSplit(m: Bytes, p: Bytes, c: Bytes)
    requires m != []
    ensures Occurrences(m, p + c) == Occurrences(m, p) + Occurrences(m, Suffix(p, |m| - 1) + c)
    decreases |p|
  {
    if |p| >= |m| {
      OccurrencesSplit(m, p[1..], c);
      assert (p + c)[..|m|] == p[..|m|];
      assert (p + c)[1..] == p[1..] + c;
      assert Suffix(p, |m| - 1) == Suffix(p[1..], |m| - 1);
    }
  }

  /** Two occurrences that overlap make a border. */
  lemma {:induction false} OverlapIsBorder(m: Bytes, s: Bytes, k: nat)
    requires 0 < k < |m| && k + |m| <= |s|
    requires s[..|m|] == m && s[k..k + |m|] == m
    ensures m[k..] == m[..|m| - k]
  {
    assert s[..|m|][k..] == s[k..|m|] == s[k..k + |m|][..|m| - k];
  }

  lemma {:induction false} SkipInside(m: Bytes, s: Bytes, k: nat)
    requires Unbordered(m) && 1 <= k <= |m| <= |s| && s[..|m|] == m
    ensures Occurrences(m, s[k..]) == Occurrences(m, s[|m|..])
    decreases |m| - k
  {
    if k < |m| {
      SkipInside(m, s, k + 1);
      assert s[k..][1..] == s[k + 1..];
      if k + |m| <= |s| {
        assert s[k..][..|m|] == s[k..k + |m|];
        if s[k..k + |m|] == m {
          OverlapIsBorder(m, s, k);
        }
      }
    }
  }

  lemma {:induction false} UnborderedCount(m: Bytes, s: Bytes)
    requires m != [] && Unbordered(m)
    ensures Count(m, s) == Occurrences(m, s)
    decreases |s|
  {
    if |s| >= |m| {
      if s[..|m|] == m {
        SkipInside(m, s, 1);
        UnborderedCount(m, s[|m|..]);
      } else {
        UnborderedCount(m, s[1..]);
      }
    }
  }

  /** For every chunking: zero exactly when the marker is not in the file; exact when unbordered. */
  lemma {:induction false} ScanCountMeaning(m: Bytes, pieces: seq<Bytes>)
    requires m != []
    ensures ScanCount(m, pieces) == 0 <==> !Occurs(m, Concat(pieces))
    ensures Unbordered(m) ==> ScanCount(m, pieces) == Occurrences(m, Concat(pieces))
    decreases |pieces|
  {
    OccurrencesZero(m, Concat(pieces));
    if pieces != [] {
      var before, last := pieces[..|pieces| - 1], pieces[|pieces| - 1];
      ScanCountMeaning(m, before);
      OccurrencesZero(m, Concat(before));
      OccurrencesSplit(m, Concat(before), last);
      var window := Suffix(Concat(before), |m| - 1) + last;
      CountZero(m, window);
      if Unbordered(m) {
        UnborderedCount(m, window);
      }
    }
  }

  /** For every chunking: no count at all exactly when no marker is in the file; exact when all are unbordered. */
  lemma {:induction false} TotalMeaning(markers: seq<Bytes>, pieces: seq<Bytes>)
    requires NonEmpty(markers)
    ensures Sum(Counts(markers, pieces)) == 0
            <==> forall i :: 0 <= i < |markers| ==> !Occurs(markers[i], Concat(pieces))
    ensures (forall i :: 0 <= i < |markers| ==> Unbordered(markers[i])) ==>
              Counts(markers, pieces) == AllOccurrences(markers, Concat(pieces))
  {
    var counts, exact := Counts(markers, pieces), AllOccurrences(markers, Concat(pieces));
    forall i | 0 <= i < |markers|
      ensures counts[i] == 0 <==> !Occurs(markers[i], Concat(pieces))
      ensures Unbordered(markers[i]) ==> counts[i] == exact[i]
    {
      ScanCountMeaning(markers[i], pieces);
    }
    SumZero(counts);
  }

  /** A marker with a border is miscounted: its self-overlap, read in one piece, counts once. */
  lemma {:induction false} BorderedMiscount(m: Bytes, k: nat)
    requires 0 < k < |m| && m[k..] == m[..|m| - k]
    ensures var file := m[..k] + m;
            ScanCount(m, [file]) == 1 && Occurrences(m, file) >= 2
  {
    var file := m[..k] + m;
    assert file[..|m|] == m by {
      assert file[..|m|] == m[..k] + m[..|m| - k] == m[..k] + m[k..];
    }
    assert |file[|m|..]| == k;
    assert Count(m, file) == 1;
    var none: seq<Bytes> := [file][..0];
    assert none == [] && Concat(none) == [] && ScanCount(m, none) == 0;
    assert Suffix(Concat(none), |m| - 1) + file == file;
    assert file[1..][k - 1..] == m;
    assert OccursAt(m, file[1..], k - 1);
    OccurrencesZero(m, file[1..]);
  }

  /** Every chunking gives the number of occurrences, for every file, exactly for unbordered markers. */
  lemma {:induction false} ExactIffUnbordered(m: Bytes)
    requires m != []
    ensures (forall pieces :: ScanCount(m, pieces) == Occurrences(m, Concat(pieces))) <==> Unbordered(m)
  {
    if Unbordered(m) {
      forall pieces ensures ScanCount(m, pieces) == Occurrences(m, Concat(pieces)) {
        ScanCountMeaning(m, pieces);
      }
    } else {
      var k :| 0 < k < |m| && m[k..] == m[..|m| - k];
      BorderedMiscount(m, k);
      var file := m[..k] + m;
      var none: seq<Bytes> := [];
      ConcatSnoc(none, file);
      assert none + [file] == [file] && Concat(none) + file == file;
      assert ScanCount(m, [file]) != Occurrences(m, Concat([file]));
    }
  }

  /** No marker of two or more bytes is listed twice; a repeated single byte has no tail to share. */
  predicate NoLongRepeat(markers: seq<Bytes>) {
    forall i, j :: 0 <= i < j < |markers| && |markers[j]| >= 2 ==> markers[i] != markers[j]
  }

  // ----- the scan itself: one dictionary of tails, shared by equal markers -----

  datatype Progress = Progress(tails: map<Bytes, Bytes>, count: nat)

  function Tail(tails: map<Bytes, Bytes>, marker: Bytes): Bytes {
    if marker in tails then tails[marker] else []
  }

  function ScanMarker(p: Progress, marker: Bytes, chunk: Bytes): Progress
    requires marker != []
  {
    var combined := Tail(p.tails, marker) + chunk;
    Progress(p.tails[marker := if |marker| > 1 then Suffix(combined, |marker| - 1) else []],
             p.count + Count(marker, combined))
  }

  function ScanMarkers(p: Progress, markers: seq<Bytes>, n: nat, chunk: Bytes): Progress
    requires n <= |markers| && NonEmpty(markers)
  {
    if n == 0 then p else ScanMarker(ScanMarkers(p, markers, n - 1, chunk), markers[n - 1], chunk)
  }

  function ScanPieces(markers: seq<Bytes>, pieces: seq<Bytes>): Progress
    requires NonEmpty(markers)
  {
    if pieces == [] then Progress(map[], 0)
    else ScanMarkers(ScanPieces(markers, pieces[..|pieces| - 1]), markers, |markers|, pieces[|pieces| - 1])
  }

  lemma {:induction false} SuffixOfSuffix(p: Bytes, c: Bytes, n: nat)
    ensures Suffix(Suffix(p, n) + c, n) == Suffix(p + c, n)
  {
  }

  lemma {:induction false} OwnTail(p: Progress, marker: Bytes, before: Bytes, chunk: Bytes)
    requires marker != [] && Tail(p.tails, marker) == Suffix(before, |marker| - 1)
    ensures Tail(ScanMarker(p, marker, chunk).tails, marker) == Suffix(before + chunk, |marker| - 1)
  {
    SuffixOfSuffix(before, chunk, |marker| - 1);
  }

  lemma {:induction false} OtherTail(p: Progress, marker: Bytes, chunk: Bytes, other: Bytes)
    requires marker != [] && marker != other
    ensures Tail(ScanMarker(p, marker, chunk).tails, other) == Tail(p.tails, other)
  {
  }

  lemma {:induction false} MarkerCount(p: Progress, marker: Bytes, tail: Bytes, chunk: Bytes)
    requires marker != [] && Tail(p.tails, marker) == tail
    ensures ScanMarker(p, marker, chunk).count == p.count + Count(marker, tail + chunk)
  {
  }

  /** What marker n counts at its turn. */
  function TurnCount(p: Progress, markers: seq<Bytes>, n: nat, chunk: Bytes): nat
    requires n < |markers| && NonEmpty(markers)
  {
    Count(markers[n], Tail(ScanMarkers(p, markers, n, chunk).tails, markers[n]) + chunk)
  }

  /** What the first n markers count at their turns. */
  function Turns(p: Progress, markers: seq<Bytes>, n: nat, chunk: Bytes): (turns: seq<nat>)
    requires n <= |markers| && NonEmpty(markers)
    ensures |turns| == n
  {
    if n == 0 then [] else Turns(p, markers, n - 1, chunk) + [TurnCount(p, markers, n - 1, chunk)]
  }

  lemma {:induction false} TurnsSnoc(p: Progress, markers: seq<Bytes>, n: nat, chunk: Bytes)
    requires n < |markers| && NonEmpty(markers)
    ensures Turns(p, markers, n + 1, chunk) == Turns(p, markers, n, chunk) + [TurnCount(p, markers, n, chunk)]
  {}

  /** The turns hold this value at i. */
  predicate HoldsAt(turns: seq<nat>, i: nat, value: nat) {
    i < |turns| && turns[i] == value
  }

  lemma {:induction false} HeldOn(turns: seq<nat>, i: nat, value: nat, last: nat)
    ensures HoldsAt(turns, i, value) ==> HoldsAt(turns + [last], i, value)
    ensures HoldsAt(turns + [last], |turns|, last)
  {}

  lemma {:induction false} TurnHeld(p: Progress, markers: seq<Bytes>, n: nat, i: nat, chunk: Bytes)
    requires i < n <= |markers| && NonEmpty(markers)
    ensures HoldsAt(Turns(p, markers, n, chunk), i, TurnCount(p, markers, i, chunk))
    decreases n
  {
    TurnsSnoc(p, markers, n - 1, chunk);
    HeldOn(Turns(p, markers, n - 1, chunk), i, TurnCount(p, markers, i, chunk), TurnCount(p, markers, n - 1, chunk));
    if i < n - 1 {
      TurnHeld(p, markers, n - 1, i, chunk);
    }
  }

  lemma {:induction false} TurnAt(p: Progress, markers: seq<Bytes>, n: nat, i: nat, chunk: Bytes)
    requires i < n <= |markers| && NonEmpty(markers)
    ensures Turns(p, markers, n, chunk)[i] == TurnCount(p, markers, i, chunk)
  {
    TurnHeld(p, markers, n, i, chunk);
  }

  lemma {:induction false} TurnsCounted(p: Progress, markers: seq<Bytes>, n: nat, chunk: Bytes)
    requires n <= |markers| && NonEmpty(markers)
    ensures ScanMarkers(p, markers, n, chunk).count == p.count + Sum(Turns(p, markers, n, chunk))
    decreases n
  {
    if n > 0 {
      TurnsCounted(p, markers, n - 1, chunk);
      SumLast(Turns(p, markers, n - 1, chunk), TurnCount(p, markers, n - 1, chunk));
    }
  }

  lemma {:induction false} ScanPiecesSnoc(markers: seq<Bytes>, pieces: seq<Bytes>, chunk: Bytes)
    requires NonEmpty(markers)
    ensures ScanPieces(markers, pieces + [chunk]) == ScanMarkers(ScanPieces(markers, pieces), markers, |markers|, chunk)
  {
    assert (pieces + [chunk])[..|pieces|] == pieces;
  }

  // ----- a long marker listed twice -----

  /** A file without the marker in which the marker appears once the file's own tail is put before it. */
  lemma {:induction false} AlarmFile(m: Bytes) returns (file: Bytes)
    requires |m| >= 2
    ensures !Occurs(m, file) && |file| >= |m| - 1
    ensures m <= Suffix(file, |m| - 1) + file
  {
    var n := |m|;
    file := if m[0] == m[n - 1] then m[..n - 1] else [m[n - 1]] + m[..n - 1];
    assert Suffix(file, n - 1) == m[..n - 1];
    assert m == m[..n - 1] + [m[n - 1]];
    if m[0] != m[n - 1] {
      forall i ensures !OccursAt(m, file, i) {
        if 0 <= i <= |file| - n {
          assert file[i..i + n][0] == m[n - 1];
        }
      }
    }
  }

  /** After a long enough chunk, a marker's tail is the end of that chunk, however often it is listed. */
  lemma {:induction false} TailReplaced(p: Progress, markers: seq<Bytes>, n: nat, i: nat, chunk: Bytes)
    requires i < n <= |markers| && NonEmpty(markers) && |chunk| >= |markers[i]| - 1
    ensures Tail(ScanMarkers(p, markers, n, chunk).tails, markers[i]) == Suffix(chunk, |markers[i]| - 1)
    decreases n
  {
    var r := ScanMarkers(p, markers, n - 1, chunk);
    if markers[n - 1] == markers[i] {
      OwnTailReplaced(r, markers[i], chunk);
    } else {
      TailReplaced(p, markers, n - 1, i, chunk);
      OtherTail(r, markers[n - 1], chunk, markers[i]);
    }
  }

  lemma {:induction false} OwnTailReplaced(p: Progress, marker: Bytes, chunk: Bytes)
    requires marker != [] && |chunk| >= |marker| - 1
    ensures Tail(ScanMarker(p, marker, chunk).tails, marker) == Suffix(chunk, |marker| - 1)
  {
    assert Suffix(Tail(p.tails, marker) + chunk, |marker| - 1) == Suffix(chunk, |marker| - 1);
  }

  /** A marker listed twice shares one tail, and a file without it is reported. */
  lemma {:induction false} RepeatedMarkerFalseAlarm(m: Bytes) returns (file: Bytes)
    requires |m| >= 2
    ensures !Occurs(m, file) && ScanPieces([m, m], [file]).count > 0
  {
    file := AlarmFile(m);
    var pair: seq<Bytes> := [m, m];
    var first := ScanMarkers(Progress(map[], 0), pair, 1, file);
    TailReplaced(Progress(map[], 0), pair, 1, 0, file);
    MarkerCount(first, m, Suffix(file, |m| - 1), file);
    var none: seq<Bytes> := [];
    assert none + [file] == [file];
    ScanPiecesSnoc(pair, none, file);
  }

  // ----- any list: what a shared tail sees -----

  /** How often the marker is among the first n. */
  function Copies(markers: seq<Bytes>, n: nat, marker: Bytes): nat
    requires n <= |markers|
  {
    if n == 0 then 0 else Copies(markers, n - 1, marker) + (if markers[n - 1] == marker then 1 else 0)
  }

  function Times(chunk: Bytes, k: nat): Bytes {
    if k == 0 then [] else Times(chunk, k - 1) + chunk
  }

  lemma {:induction false} TimesAfter(before: Bytes, chunk: Bytes, k: nat)
    ensures before + Times(chunk, 0) == before
    ensures before + Times(chunk, k + 1) == before + Times(chunk, k) + chunk
  {}

  /** The file as a marker listed k times sees it: every piece k times in a row. */
  function Seen(pieces: seq<Bytes>, k: nat): Bytes {
    if pieces == [] then [] else Seen(pieces[..|pieces| - 1], k) + Times(pieces[|pieces| - 1], k)
  }

  /** What a marker has seen before turn n of a chunk. */
  function SeenAt(before: Bytes, markers: seq<Bytes>, n: nat, m: Bytes, chunk: Bytes): Bytes
    requires n <= |markers|
  {
    if n == 0 then before
    else if markers[n - 1] == m then SeenAt(before, markers, n - 1, m, chunk) + chunk
    else SeenAt(before, markers, n - 1, m, chunk)
  }

  lemma {:induction false} SeenAtIsTimes(before: Bytes, markers: seq<Bytes>, n: nat, m: Bytes, chunk: Bytes)
    requires n <= |markers|
    ensures SeenAt(before, markers, n, m, chunk) == before + Times(chunk, Copies(markers, n, m))
  {
    if n == 0 {
      TimesAfter(before, chunk, 0);
    } else {
      SeenAtIsTimes(before, markers, n - 1, m, chunk);
      TimesAfter(before, chunk, Copies(markers, n - 1, m));
    }
  }

  lemma {:induction false} TailStep(r: Progress, marker: Bytes, m: Bytes, seen: Bytes, chunk: Bytes)
    requires marker != [] && m != [] && Tail(r.tails, m) == Suffix(seen, |m| - 1)
    ensures Tail(ScanMarker(r, marker, chunk).tails, m) == Suffix(if marker == m then seen + chunk else seen, |m| - 1)
  {
    if marker == m {
      OwnTail(r, m, seen, chunk);
    } else {
      OtherTail(r, marker, chunk, m);
    }
  }

  /** Before which turns the marker's tail is the end of what the marker has seen. */
  function Tracked(p: Progress, markers: seq<Bytes>, m: Bytes, before: Bytes, chunk: Bytes): (tracked: seq<bool>)
    requires NonEmpty(markers) && m != []
    ensures |tracked| == |markers| + 1
  {
    seq(|markers| + 1, i requires 0 <= i <= |markers| =>
      Tail(ScanMarkers(p, markers, i, chunk).tails, m) == Suffix(SeenAt(before, markers, i, m, chunk), |m| - 1))
  }

  lemma {:induction false} TrackedStep(p: Progress, markers: seq<Bytes>, i: nat, m: Bytes, before: Bytes, chunk: Bytes)
    requires i < |markers| && NonEmpty(markers) && m != []
    ensures Tracked(p, markers, m, before, chunk)[i] ==> Tracked(p, markers, m, before, chunk)[i + 1]
  {
    if Tracked(p, markers, m, before, chunk)[i] {
      TailStep(ScanMarkers(p, markers, i, chunk), markers[i], m, SeenAt(before, markers, i, m, chunk), chunk);
    }
  }

  lemma {:induction false} Stays(held: seq<bool>, n: nat)
    requires n < |held| && held[0] && forall i :: 0 <= i < |held| - 1 && held[i] ==> held[i + 1]
    ensures held[n]
  {
    if n > 0 {
      Stays(held, n - 1);
      assert held[n - 1] ==> held[n - 1 + 1];
    }
  }

  lemma {:induction false} AllTracked(p: Progress, markers: seq<Bytes>, n: nat, m: Bytes, before: Bytes, chunk: Bytes)
    requires n <= |markers| && NonEmpty(markers) && m != [] && Tail(p.tails, m) == Suffix(before, |m| - 1)
    ensures Tracked(p, markers, m, before, chunk)[n]
  {
    var tracked := Tracked(p, markers, m, before, chunk);
    forall i | 0 <= i < |markers| && tracked[i] ensures tracked[i + 1] {
      TrackedStep(p, markers, i, m, before, chunk);
    }
    Stays(tracked, n);
  }

  lemma {:induction false} TailSeen(p: Progress, markers: seq<Bytes>, n: nat, m: Bytes, before: Bytes, chunk: Bytes)
    requires n <= |markers| && NonEmpty(markers) && m != [] && Tail(p.tails, m) == Suffix(before, |m| - 1)
    ensures Tail(ScanMarkers(p, markers, n, chunk).tails, m) == Suffix(SeenAt(before, markers, n, m, chunk), |m| - 1)
  {
    AllTracked(p, markers, n, m, before, chunk);
  }

  // ----- lists without long repeats: every marker is counted as if it were alone -----

  /** A long marker has seen nothing of the chunk before its turn. */
  lemma {:induction false} NotYetSeen(before: Bytes, markers: seq<Bytes>, n: nat, j: nat, chunk: Bytes)
    requires NoLongRepeat(markers) && n <= j < |markers| && |markers[j]| >= 2
    ensures SeenAt(before, markers, n, markers[j], chunk) == before
  {
    if n > 0 {
      NotYetSeen(before, markers, n - 1, j, chunk);
    }
  }

  lemma {:induction false} SeenAfterTurn(before: Bytes, markers: seq<Bytes>, n: nat, j: nat, chunk: Bytes)
    requires NoLongRepeat(markers) && j < n <= |markers| && |markers[j]| >= 2
    ensures SeenAt(before, markers, n, markers[j], chunk) == before + chunk
  {
    if n - 1 == j {
      NotYetSeen(before, markers, j, j, chunk);
    } else {
      SeenAfterTurn(before, markers, n - 1, j, chunk);
    }
  }

  lemma {:induction false} OwnTails(markers: seq<Bytes>, pieces: seq<Bytes>, j: nat)
    requires NonEmpty(markers) && NoLongRepeat(markers) && j < |markers|
    ensures Tail(ScanPieces(markers, pieces).tails, markers[j]) == Suffix(Concat(pieces), |markers[j]| - 1)
    decreases |pieces|
  {
    if pieces != [] {
      var before, last := pieces[..|pieces| - 1], pieces[|pieces| - 1];
      OwnTails(markers, before, j);
      TailSeen(ScanPieces(markers, before), markers, |markers|, markers[j], Concat(before), last);
      if |markers[j]| >= 2 {
        SeenAfterTurn(Concat(before), markers, |markers|, j, last);
      }
    }
  }

  lemma {:induction false} OwnTurn(markers: seq<Bytes>, before: seq<Bytes>, last: Bytes, j: nat)
    requires NonEmpty(markers) && NoLongRepeat(markers) && j < |markers|
    ensures ScanCount(markers[j], before + [last])
            == ScanCount(markers[j], before) + TurnCount(ScanPieces(markers, before), markers, j, last)
  {
    assert (before + [last])[..|before|] == before;
    OwnTails(markers, before, j);
    TailSeen(ScanPieces(markers, before), markers, j, markers[j], Concat(before), last);
    if |markers[j]| >= 2 {
      NotYetSeen(Concat(before), markers, j, j, last);
    }
  }

  lemma {:induction false} PieceAdded(markers: seq<Bytes>, before: seq<Bytes>, last: Bytes)
    requires NonEmpty(markers) && NoLongRepeat(markers)
    ensures Sum(Counts(markers, before + [last]))
            == Sum(Counts(markers, before)) + Sum(Turns(ScanPieces(markers, before), markers, |markers|, last))
  {
    var counted, turns := Counts(markers, before), Turns(ScanPieces(markers, before), markers, |markers|, last);
    var counts := Counts(markers, before + [last]);
    forall j | 0 <= j < |markers| ensures counts[j] == counted[j] + turns[j] {
      OwnTurn(markers, before, last, j);
      TurnAt(ScanPieces(markers, before), markers, |markers|, j, last);
    }
    SumAdds(counted, turns, counts);
  }

  lemma {:induction false} PiecesMeaning(markers: seq<Bytes>, pieces: seq<Bytes>)
    requires NonEmpty(markers) && NoLongRepeat(markers)
    ensures ScanPieces(markers, pieces).count == Sum(Counts(markers, pieces))
    decreases |pieces|
  {
    if pieces == [] {
      SumZero(Counts(markers, pieces));
    } else {
      var before, last := pieces[..|pieces| - 1], pieces[|pieces| - 1];
      PiecesMeaning(markers, before);
      assert pieces == before + [last];
      PieceAdded(markers, before, last);
      ScanPiecesSnoc(markers, before, last);
      TurnsCounted(ScanPieces(markers, before), markers, |markers|, last);
    }
  }

  // ----- any list: nothing is counted -----

  /** None of the first n turns is one of this marker that counts something. */
  predicate Silent(markers: seq<Bytes>, turns: seq<nat>, n: nat, m: Bytes)
    requires n <= |markers| == |turns|
  {
    n == 0 || (Silent(markers, turns, n - 1, m) && (markers[n - 1] == m ==> turns[n - 1] == 0))
  }

  lemma {:induction false} TurnSees(p: Progress, markers: seq<Bytes>, n: nat, before: Bytes, chunk: Bytes)
    requires n < |markers| && NonEmpty(markers) && Tail(p.tails, markers[n]) == Suffix(before, |markers[n]| - 1)
    ensures var seen := SeenAt(before, markers, n, markers[n], chunk);
            Occurrences(markers[n], seen + chunk) == 0
            <==> Occurrences(markers[n], seen) == 0 && TurnCount(p, markers, n, chunk) == 0
  {
    var m := markers[n];
    var seen := SeenAt(before, markers, n, m, chunk);
    TailSeen(p, markers, n, m, before, chunk);
    OccurrencesSplit(m, seen, chunk);
    CountZero(m, Suffix(seen, |m| - 1) + chunk);
  }

  /** Before which turns the marker is not yet in what it has seen. */
  function Quiet(before: Bytes, markers: seq<Bytes>, m: Bytes, chunk: Bytes): (quiet: seq<bool>)
    requires m != []
    ensures |quiet| == |markers| + 1
  {
    seq(|markers| + 1, i requires 0 <= i <= |markers| => Occurrences(m, SeenAt(before, markers, i, m, chunk)) == 0)
  }

  /** Turn i breaks the silence exactly when it is one of the marker's and counts something. */
  predicate StepIsQuiet(markers: seq<Bytes>, turns: seq<nat>, m: Bytes, quiet: seq<bool>, i: nat)
    requires i < |markers| == |turns| && |quiet| == |markers| + 1
  {
    quiet[i + 1] <==> quiet[i] && (markers[i] == m ==> turns[i] == 0)
  }

  lemma {:induction false} QuietStep(p: Progress, markers: seq<Bytes>, i: nat, m: Bytes, before: Bytes, chunk: Bytes)
    requires i < |markers| && NonEmpty(markers) && m != [] && Tail(p.tails, m) == Suffix(before, |m| - 1)
    ensures StepIsQuiet(markers, Turns(p, markers, |markers|, chunk), m, Quiet(before, markers, m, chunk), i)
  {
    TurnAt(p, markers, |markers|, i, chunk);
    if markers[i] == m {
      TurnSees(p, markers, i, before, chunk);
    }
  }

  lemma {:induction false} SilentQuiet(markers: seq<Bytes>, turns: seq<nat>, n: nat, m: Bytes, quiet: seq<bool>)
    requires n <= |markers| == |turns| && |quiet| == |markers| + 1
    requires forall i :: 0 <= i < |markers| ==> StepIsQuiet(markers, turns, m, quiet, i)
    ensures quiet[n] <==> quiet[0] && Silent(markers, turns, n, m)
  {
    if n > 0 {
      SilentQuiet(markers, turns, n - 1, m, quiet);
      assert StepIsQuiet(markers, turns, m, quiet, n - 1);
    }
  }

  lemma {:induction false} QuietEnds(before: Bytes, markers: seq<Bytes>, m: Bytes, chunk: Bytes)
    requires m != []
    ensures Quiet(before, markers, m, chunk)[0] <==> Occurrences(m, before) == 0
    ensures Quiet(before, markers, m, chunk)[|markers|]
            <==> Occurrences(m, SeenAt(before, markers, |markers|, m, chunk)) == 0
  {}

  lemma {:induction false} QuietIsSilent(p: Progress, markers: seq<Bytes>, m: Bytes, before: Bytes, chunk: Bytes)
    requires NonEmpty(markers) && m != [] && Tail(p.tails, m) == Suffix(before, |m| - 1)
    ensures Quiet(before, markers, m, chunk)[|markers|]
            <==> Quiet(before, markers, m, chunk)[0]
                 && Silent(markers, Turns(p, markers, |markers|, chunk), |markers|, m)
  {
    var turns, quiet := Turns(p, markers, |markers|, chunk), Quiet(before, markers, m, chunk);
    forall i | 0 <= i < |markers| ensures StepIsQuiet(markers, turns, m, quiet, i) {
      QuietStep(p, markers, i, m, before, chunk);
    }
    SilentQuiet(markers, turns, |markers|, m, quiet);
  }

  lemma {:induction false} SilentSees(p: Progress, markers: seq<Bytes>, m: Bytes, before: Bytes, chunk: Bytes)
    requires NonEmpty(markers) && m != [] && Tail(p.tails, m) == Suffix(before, |m| - 1)
    ensures Occurrences(m, SeenAt(before, markers, |markers|, m, chunk)) == 0
            <==> Occurrences(m, before) == 0 && Silent(markers, Turns(p, markers, |markers|, chunk), |markers|, m)
  {
    QuietEnds(before, markers, m, chunk);
    QuietIsSilent(p, markers, m, before, chunk);
  }

  lemma {:induction false} SilentAt(markers: seq<Bytes>, turns: seq<nat>, n: nat, i: nat, m: Bytes)
    requires i < n <= |markers| == |turns| && Silent(markers, turns, n, m) && markers[i] == m
    ensures turns[i] == 0
  {
    if i < n - 1 {
      SilentAt(markers, turns, n - 1, i, m);
    }
  }

  lemma {:induction false} AllSilent(markers: seq<Bytes>, turns: seq<nat>, n: nat, m: Bytes)
    requires n <= |markers| == |turns| && forall i :: 0 <= i < n ==> turns[i] == 0
    ensures Silent(markers, turns, n, m)
  {
    if n > 0 {
      AllSilent(markers, turns, n - 1, m);
    }
  }

  /** No turn counts anything exactly when every marker is silent. */
  lemma {:induction false} SumIsSilent(markers: seq<Bytes>, turns: seq<nat>)
    requires |markers| == |turns|
    ensures Sum(turns) == 0 <==> forall j :: 0 <= j < |markers| ==> Silent(markers, turns, |markers|, markers[j])
  {
    SumZero(turns);
    if Sum(turns) == 0 {
      forall j | 0 <= j < |markers| ensures Silent(markers, turns, |markers|, markers[j]) {
        AllSilent(markers, turns, |markers|, markers[j]);
      }
    }
    forall j | 0 <= j < |markers| && Silent(markers, turns, |markers|, markers[j]) ensures turns[j] == 0 {
      SilentAt(markers, turns, |markers|, j, markers[j]);
    }
  }

  /** The file as marker j of the list sees it. */
  function SeenBy(markers: seq<Bytes>, j: nat, pieces: seq<Bytes>): Bytes
    requires j < |markers|
  {
    Seen(pieces, Copies(markers, |markers|, markers[j]))
  }

  ghost predicate NoneSeen(markers: seq<Bytes>, pieces: seq<Bytes>) {
    forall j :: 0 <= j < |markers| ==> !Occurs(markers[j], SeenBy(markers, j, pieces))
  }

  lemma {:induction false} SeenTails(markers: seq<Bytes>, pieces: seq<Bytes>, j: nat)
    requires NonEmpty(markers) && j < |markers|
    ensures Tail(ScanPieces(markers, pieces).tails, markers[j])
            == Suffix(SeenBy(markers, j, pieces), |markers[j]| - 1)
    decreases |pieces|
  {
    if pieces != [] {
      var before, last := pieces[..|pieces| - 1], pieces[|pieces| - 1];
      SeenTails(markers, before, j);
      TailSeen(ScanPieces(markers, before), markers, |markers|, markers[j], SeenBy(markers, j, before), last);
      SeenAtIsTimes(SeenBy(markers, j, before), markers, |markers|, markers[j], last);
    }
  }

  /** One more piece, for one marker. */
  lemma {:induction false} PieceSeen(markers: seq<Bytes>, before: seq<Bytes>, last: Bytes, j: nat)
    requires NonEmpty(markers) && j < |markers|
    ensures !Occurs(markers[j], SeenBy(markers, j, before + [last]))
            <==> !Occurs(markers[j], SeenBy(markers, j, before))
                 && Silent(markers, Turns(ScanPieces(markers, before), markers, |markers|, last), |markers|, markers[j])
  {
    var m, seen := markers[j], SeenBy(markers, j, before);
    SeenTails(markers, before, j);
    SilentSees(ScanPieces(markers, before), markers, m, seen, last);
    SeenAtIsTimes(seen, markers, |markers|, m, last);
    assert (before + [last])[..|before|] == before;
    OccurrencesZero(m, seen);
    OccurrencesZero(m, SeenBy(markers, j, before + [last]));
  }

  lemma {:induction false} NoneSeenSnoc(markers: seq<Bytes>, before: seq<Bytes>, last: Bytes)
    requires NonEmpty(markers)
    ensures NoneSeen(markers, before + [last])
            <==> NoneSeen(markers, before) && Sum(Turns(ScanPieces(markers, before), markers, |markers|, last)) == 0
  {
    var turns := Turns(ScanPieces(markers, before), markers, |markers|, last);
    forall j | 0 <= j < |markers|
      ensures !Occurs(markers[j], SeenBy(markers, j, before + [last]))
              <==> !Occurs(markers[j], SeenBy(markers, j, before)) && Silent(markers, turns, |markers|, markers[j])
    {
      PieceSeen(markers, before, last, j);
    }
    SumIsSilent(markers, turns);
  }

  /**
   Any list, any file, any chunking: nothing is counted exactly when no marker occurs in the file
   with every piece written as often in a row as the marker is listed.
   */
  lemma {:induction false} NothingCountedIff(markers: seq<Bytes>, pieces: seq<Bytes>)
    requires NonEmpty(markers)
    ensures ScanPieces(markers, pieces).count == 0 <==> NoneSeen(markers, pieces)
    decreases |pieces|
  {
    if pieces == [] {
      forall j | 0 <= j < |markers| ensures !Occurs(markers[j], SeenBy(markers, j, pieces)) {
        OccurrencesZero(markers[j], []);
      }
    } else {
      var before, last := pieces[..|pieces| - 1], pieces[|pieces| - 1];
      assert pieces == before + [last];
      NothingCountedIff(markers, before);
      NoneSeenSnoc(markers, before, last);
      ScanPiecesSnoc(markers, before, last);
      TurnsCounted(ScanPieces(markers, before), markers, |markers|, last);
    }
  }

  /** A file read in one piece is reported exactly when a marker is in the file repeated as often as it is listed. */
  lemma {:induction false} FalseAlarmIff(markers: seq<Bytes>, file: Bytes)
    requires NonEmpty(markers)
    ensures ScanPieces(markers, [file]).count > 0
            <==> exists j :: 0 <= j < |markers|
                   && Occurs(markers[j], Times(file, Copies(markers, |markers|, markers[j])))
  {
    NothingCountedIff(markers, [file]);
    forall j | 0 <= j < |markers|
      ensures SeenBy(markers, j, [file]) == Times(file, Copies(markers, |markers|, markers[j]))
    {
      SeenOnce(file, Copies(markers, |markers|, markers[j]));
    }
  }

  lemma {:induction false} SeenOnce(file: Bytes, k: nat)
    ensures Seen([file], k) == Times(file, k)
  {
    var none: seq<Bytes> := [];
    assert [file][..0] == none && Seen(none, k) == [];
  }

  lemma {:induction false} TwoCopies(markers: seq<Bytes>, n: nat, i: nat, j: nat)
    requires i < j < n <= |markers| && markers[i] == markers[j]
    ensures Copies(markers, n, markers[j]) >= 2
  {
    if j < n - 1 {
      TwoCopies(markers, n - 1, i, j);
    } else {
      OneCopy(markers, j, i);
    }
  }

  lemma {:induction false} OneCopy(markers: seq<Bytes>, n: nat, i: nat)
    requires i < n <= |markers|
    ensures Copies(markers, n, markers[i]) >= 1
  {
    if i < n - 1 {
      OneCopy(markers, n - 1, i);
    }
  }

  /**
   Whatever else is listed: a file in which no marker occurs is reported when a marker listed twice
   runs from its end on into its start.
   */
  lemma {:induction false} RepeatAlarm(markers: seq<Bytes>, i: nat, j: nat, file: Bytes)
    requires NonEmpty(markers) && i < j < |markers| && markers[i] == markers[j]
    requires forall l :: 0 <= l < |markers| ==> !Occurs(markers[l], file)
    requires Occurs(markers[j], file + file)
    ensures ScanPieces(markers, [file]).count > 0
  {
    var m := markers[j];
    var k := Copies(markers, |markers|, m);
    TwoCopies(markers, |markers|, i, j);
    TimesAfter([], file, k - 1);
    TimesAfter([], file, k - 2);
    var before := Times(file, k - 2);
    assert Times(file, k) == before + (file + file);
    var at :| OccursAt(m, file + file, at);
    assert (before + (file + file))[|before| + at..|before| + at + |m|] == (file + file)[at..at + |m|];
    assert OccursAt(m, Times(file, k), |before| + at);
    FalseAlarmIff(markers, file);
  }

  lemma {:induction false} OccurrencesAfter(m: Bytes, before: Bytes, s: Bytes)
    requires m != []
    ensures Occurrences(m, before + s) >= Occurrences(m, s)
    decreases |before|
  {
    if before == [] {
      assert before + s == s;
    } else {
      OccurrencesAfter(m, before[1..], s);
      assert (before + s)[1..] == before[1..] + s;
    }
  }

  predicate AllUnbordered(markers: seq<Bytes>) {
    NonEmpty(markers) && forall i :: 0 <= i < |markers| ==> Unbordered(markers[i])
  }

  lemma {:induction false} SumAtMost(a: seq<nat>, b: seq<nat>)
    requires |a| == |b| && forall i :: 0 <= i < |a| ==> a[i] <= b[i]
    ensures Sum(a) <= Sum(b)
    decreases |a|
  {
    if a != [] {
      SumAtMost(a[..|a| - 1], b[..|b| - 1]);
    }
  }

  lemma {:induction false} SumLess(a: seq<nat>, b: seq<nat>, j: nat)
    requires |a| == |b| && j < |a| && a[j] < b[j] && forall i :: 0 <= i < |a| ==> a[i] <= b[i]
    ensures Sum(a) < Sum(b)
    decreases |a|
  {
    if j < |a| - 1 {
      SumLess(a[..|a| - 1], b[..|b| - 1], j);
    } else {
      SumAtMost(a[..|a| - 1], b[..|b| - 1]);
    }
  }

  /** A turn counts at least what the chunk alone holds of the marker. */
  lemma {:induction false} TurnAtLeast(p: Progress, markers: seq<Bytes>, i: nat, chunk: Bytes)
    requires AllUnbordered(markers) && i < |markers|
    ensures TurnCount(p, markers, i, chunk) >= AllOccurrences(markers, chunk)[i]
  {
    var tail := Tail(ScanMarkers(p, markers, i, chunk).tails, markers[i]);
    UnborderedCount(markers[i], tail + chunk);
    OccurrencesAfter(markers[i], tail, chunk);
  }

  /** The second turn of a long marker finds it across the end and the start of the same chunk. */
  lemma {:induction false} SecondTurn(p: Progress, markers: seq<Bytes>, i: nat, j: nat, chunk: Bytes)
    requires AllUnbordered(markers) && i < j < |markers| && markers[i] == markers[j]
    requires |chunk| >= |markers[j]| - 1 && !Occurs(markers[j], chunk)
    requires markers[j] <= Suffix(chunk, |markers[j]| - 1) + chunk
    ensures TurnCount(p, markers, j, chunk) > AllOccurrences(markers, chunk)[j]
  {
    var m := markers[j];
    var tail := Suffix(chunk, |m| - 1);
    TailReplaced(p, markers, j, i, chunk);
    assert Count(m, tail + chunk) >= 1;
    OccurrencesZero(m, chunk);
  }

  lemma {:induction false} TurnsExceed(p: Progress, markers: seq<Bytes>, i: nat, j: nat, chunk: Bytes)
    requires AllUnbordered(markers) && i < j < |markers| && markers[i] == markers[j]
    requires |chunk| >= |markers[j]| - 1 && !Occurs(markers[j], chunk)
    requires markers[j] <= Suffix(chunk, |markers[j]| - 1) + chunk
    ensures Sum(Turns(p, markers, |markers|, chunk)) > Sum(AllOccurrences(markers, chunk))
  {
    var turns, all := Turns(p, markers, |markers|, chunk), AllOccurrences(markers, chunk);
    forall k | 0 <= k < |markers| ensures all[k] <= turns[k] {
      TurnAtLeast(p, markers, k, chunk);
      TurnAt(p, markers, |markers|, k, chunk);
    }
    SecondTurn(p, markers, i, j, chunk);
    TurnAt(p, markers, |markers|, j, chunk);
    SumLess(all, turns, j);
  }

  lemma {:induction false} OnePiece(markers: seq<Bytes>, file: Bytes)
    requires NonEmpty(markers)
    ensures ScanPieces(markers, [file]).count == Sum(Turns(Progress(map[], 0), markers, |markers|, file))
    ensures Concat([file]) == file
  {
    var none: seq<Bytes> := [];
    assert none + [file] == [file];
    ScanPiecesSnoc(markers, none, file);
    ConcatSnoc(none, file);
    TurnsCounted(Progress(map[], 0), markers, |markers|, file);
  }

  /** A long marker listed twice makes some file count too much. */
  lemma {:induction false} LongRepeatMiscounts(markers: seq<Bytes>, i: nat, j: nat) returns (file: Bytes)
    requires AllUnbordered(markers) && i < j < |markers| && |markers[j]| >= 2 && markers[i] == markers[j]
    ensures ScanPieces(markers, [file]).count > Sum(AllOccurrences(markers, Concat([file])))
  {
    file := AlarmFile(markers[j]);
    TurnsExceed(Progress(map[], 0), markers, i, j, file);
    OnePiece(markers, file);
  }

  /** For unbordered markers: every file and chunking is counted exactly if and only if no long marker is repeated. */
  lemma {:induction false} ExactIffNoLongRepeat(markers: seq<Bytes>)
    requires AllUnbordered(markers)
    ensures (forall pieces :: ScanPieces(markers, pieces).count == Sum(AllOccurrences(markers, Concat(pieces))))
            <==> NoLongRepeat(markers)
  {
    if NoLongRepeat(markers) {
      forall pieces ensures ScanPieces(markers, pieces).count == Sum(AllOccurrences(markers, Concat(pieces))) {
        PiecesMeaning(markers, pieces);
        TotalMeaning(markers, pieces);
      }
    } else {
      var i, j :| 0 <= i < j < |markers| && |markers[j]| >= 2 && markers[i] == markers[j];
      var file := LongRepeatMiscounts(markers, i, j);
    }
  }

  datatype ScanError = InvalidMarker | Truncated | Grew | Mutated

  datatype ScanResult = Scanned(count: nat) | Refused(error: ScanError)

  /**
   scan_file: size is the stat size, offered what the operating system has to offer at each read,
   grew whether a byte is left at the end, stable whether the file and its name are still the same.
   pieces are the chunks actually taken.
   */
  method ScanFile(markers: seq<Bytes>, size: nat, offered: seq<Bytes>, grew: bool, stable: bool)
    returns (result: ScanResult, pieces: seq<Bytes>)
    ensures result.Scanned? ==> |Concat(pieces)| == size && NonEmpty(markers)
    ensures result.Scanned? ==> result.count == ScanPieces(markers, pieces).count
    ensures result.Scanned? ==> (result.count == 0 <==> NoneSeen(markers, pieces))
    ensures result.Scanned? && NoLongRepeat(markers) ==>
              (result.count == 0 <==> forall i :: 0 <= i < |markers| ==> !Occurs(markers[i], Concat(pieces)))
    ensures result.Scanned? && NoLongRepeat(markers) && (forall i :: 0 <= i < |markers| ==> Unbordered(markers[i])) ==>
              result.count == Sum(AllOccurrences(markers, Concat(pieces)))
    ensures result.Refused? ==> !NonEmpty(markers) || markers == [] || |Concat(pieces)| < size || grew || !stable
    ensures !NonEmpty(markers) || markers == [] ==> result == Refused(InvalidMarker)
    ensures grew || !stable ==> result.Refused?
  {
    pieces := [];
    if markers == [] || !NonEmpty(markers) {
      return Refused(InvalidMarker), pieces;
    }
    var remaining: nat := size;
    var tails: map<Bytes, Bytes> := map[];
    var count: nat := 0;
    while remaining > 0
      invariant remaining + |Concat(pieces)| == size
      invariant ScanPieces(markers, pieces) == Progress(tails, count)
    {
      var chunk: Bytes := [];
      if |pieces| < |offered| {
        chunk := offered[|pieces|][..Min(|offered[|pieces|]|, Min(SCAN_CHUNK_SIZE, remaining))];
      }
      if chunk == [] {
        return Refused(Truncated), pieces;
      }
      remaining := remaining - |chunk|;
      tails, count := ScanChunk(markers, tails, count, chunk);
      ConcatSnoc(pieces, chunk);
      assert (pieces + [chunk])[..|pieces|] == pieces;
      pieces := pieces + [chunk];
    }
    if grew {
      return Refused(Grew), pieces;
    }
    if !stable {
      return Refused(Mutated), pieces;
    }
    NothingCountedIff(markers, pieces);
    if NoLongRepeat(markers) {
      PiecesMeaning(markers, pieces);
      TotalMeaning(markers, pieces);
    }
    result := Scanned(count);
  }

  /** The loop over the markers for one chunk. */
  method ScanChunk(markers: seq<Bytes>, tails: map<Bytes, Bytes>, count: nat, chunk: Bytes)
    returns (newTails: map<Bytes, Bytes>, newCount: nat)
    requires NonEmpty(markers)
    ensures Progress(newTails, newCount) == ScanMarkers(Progress(tails, count), markers, |markers|, chunk)
  {
    newTails, newCount := tails, count;
    for i := 0 to |markers|
      invariant Progress(newTails, newCount) == ScanMarkers(Progress(tails, count), markers, i, chunk)
    {
      var marker := markers[i];
      var combined := Tail(newTails, marker) + chunk;
      newCount := newCount + Count(marker, combined);
      newTails := newTails[marker := if |marker| > 1 then Suffix(combined, |marker| - 1) else []];
    }
  }
}
