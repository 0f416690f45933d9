/**
 The hash-chained audit file: what verifies, what tampering cannot hide, and what the chain alone
 does not catch.

 The digest is a parameter `h`.  Correctness needs nothing of it; tamper evidence needs only that
 it has no collision among the records at hand.
 */
module AuditLog {
  import opened Prelude

  type Hash = string

  const GENESIS_HASH: Hash := "0000000000000000000000000000000000000000000000000000000000000000"

  type Digest<!E> = (int, Hash, E) -> Hash

  // A line of the file.  An Object is a JSON object holding any subset of the four fields.
  datatype Line<E> =
    | Blank
    | NotJson
    | Object(seqNo: Option<int>, prev: Option<Hash>, hash: Option<Hash>, event: Option<E>)

  function Record<E>(n: int, prev: Hash, hash: Hash, event: E): Line<E> {
    Object(Some(n), Some(prev), Some(hash), Some(event))
  }

  predicate Complete<E>(r: Line<E>) {
    r.Object? && r.seqNo.Some? && r.prev.Some? && r.hash.Some? && r.event.Some?
  }

  // ---- What it means to verify ----

  function Records<E>(lines: seq<Line<E>>): seq<Line<E>> {
    if lines == [] then []
    else
      var last := lines[|lines| - 1];
      var init := Records(lines[..|lines| - 1]);
      if last.Blank? then init else init + [last]
  }

  // The hash the next record has to carry as its predecessor's.
  function TailHash<E>(rs: seq<Line<E>>): Hash {
    if rs == [] || !rs[|rs| - 1].Object? then GENESIS_HASH else rs[|rs| - 1].hash.GetOr(GENESIS_HASH)
  }

  ghost predicate Linked<E(!new)>(h: Digest<E>, r: Line<E>, n: int, prev: Hash) {
    && Complete(r)
    && r.seqNo.value == n
    && r.prev.value == prev
    && r.hash.value == h(n, prev, r.event.value)
  }

  // Every record continues the chain of the records before it.
  ghost predicate Chained<E(!new)>(h: Digest<E>, rs: seq<Line<E>>) {
    rs == [] || var init := rs[..|rs| - 1]; Chained(h, init) && Linked(h, rs[|rs| - 1], |init|, TailHash(init))
  }

  ghost predicate Verifies<E(!new)>(h: Digest<E>, lines: seq<Line<E>>) {
    Chained(h, Records(lines))
  }

  // Line k (counted from 1) is the first that does not hold.
  ghost predicate BrokenAt<E(!new)>(h: Digest<E>, lines: seq<Line<E>>, k: nat) {
    1 <= k <= |lines| && Verifies(h, lines[..k - 1]) && !Verifies(h, lines[..k])
  }

  lemma RecordsSnoc<E(!new)>(lines: seq<Line<E>>, line: Line<E>)
    ensures Records(lines + [line]) == if line.Blank? then Records(lines) else Records(lines) + [line]
  {
    assert (lines + [line])[..|lines|] == lines;
  }

  lemma VerifiesSnoc<E(!new)>(h: Digest<E>, lines: seq<Line<E>>, line: Line<E>)
    ensures Verifies(h, lines + [line])
       <==> Verifies(h, lines) && (line.Blank? || Linked(h, line, |Records(lines)|, TailHash(Records(lines))))
  {
    RecordsSnoc(lines, line);
    if !line.Blank? {
      assert Records(lines + [line])[..|Records(lines)|] == Records(lines);
    }
  }

  // Dropping lines off the end is what the chain alone cannot see.
  lemma {:induction false} TruncationVerifies<E(!new)>(h: Digest<E>, lines: seq<Line<E>>, k: nat)
    requires Verifies(h, lines) && k <= |lines|
    ensures Verifies(h, lines[..k])
    decreases |lines|
  {
    if k < |lines| {
      var init := lines[..|lines| - 1];
      assert lines == init + [lines[|lines| - 1]];
      VerifiesSnoc(h, init, lines[|lines| - 1]);
      TruncationVerifies(h, init, k);
      assert init[..k] == lines[..k];
    } else {
      assert lines[..k] == lines;
    }
  }

  lemma BrokenExactlyOnce<E(!new)>(h: Digest<E>, lines: seq<Line<E>>, j: nat, k: nat)
    requires BrokenAt(h, lines, j) && BrokenAt(h, lines, k)
    ensures j == k
  {
    if j < k {
      assert lines[..k - 1][..j] == lines[..j];
      TruncationVerifies(h, lines[..k - 1], j);
    } else if k < j {
      assert lines[..j - 1][..k] == lines[..k];
      TruncationVerifies(h, lines[..j - 1], k);
    }
  }

  lemma {:induction false} NotVerifyingBreaks<E(!new)>(h: Digest<E>, lines: seq<Line<E>>) returns (k: nat)
    requires !Verifies(h, lines)
    ensures BrokenAt(h, lines, k)
  {
    if lines != [] {
      var init := lines[..|lines| - 1];
      if Verifies(h, init) {
        k := |lines|;
        assert lines[..k] == lines;
      } else {
        k := NotVerifyingBreaks(h, init);
        assert init[..k] == lines[..k] && init[..k - 1] == lines[..k - 1];
      }
    }
  }

  // ---- The verifier ----

  datatype Reason = Fine | InvalidJson | MissingFields | WrongSeq | WrongPrev | WrongDigest

  datatype ChainVerification = ChainVerification(ok: bool, recordsChecked: nat, brokenAtLine: Option<nat>,
      reason: Reason)

  // Why a line cannot be record n after `prev`.
  ghost predicate Explains<E(!new)>(reason: Reason, h: Digest<E>, r: Line<E>, n: int, prev: Hash) {
    match reason
    case Fine => false
    case InvalidJson => r.NotJson?
    case MissingFields => r.Object? && !Complete(r)
    case WrongSeq => Complete(r) && r.seqNo.value != n
    case WrongPrev => Complete(r) && r.seqNo.value == n && r.prev.value != prev
    case WrongDigest =>
      Complete(r) && r.seqNo.value == n && r.prev.value == prev && r.hash.value != h(n, prev, r.event.value)
  }

  lemma RecordsAndVerifiesEmpty<E(!new)>(h: Digest<E>, lines: seq<Line<E>>)
    requires lines == []
    ensures Records(lines) == [] && Verifies(h, lines)
  {
  }

  method VerifyChain<E(!new)>(h: Digest<E>, lines: seq<Line<E>>) returns (v: ChainVerification)
    ensures v.ok <==> Verifies(h, lines)
    ensures v.ok ==> v.recordsChecked == |Records(lines)| && v.brokenAtLine.None? && v.reason.Fine?
    ensures !v.ok ==>
              && v.brokenAtLine.Some? && BrokenAt(h, lines, v.brokenAtLine.value)
              && var before := Records(lines[..v.brokenAtLine.value - 1]);
                 && v.recordsChecked == |before|
                 && Explains(v.reason, h, lines[v.brokenAtLine.value - 1], |before|, TailHash(before))
  {
    hide Verifies, Records;
    RecordsAndVerifiesEmpty(h, lines[..0]);
    var expectedSeq: nat := 0;
    var expectedPrev := GENESIS_HASH;
    var checked: nat := 0;
    var i := 0;
    while i < |lines|
      invariant i <= |lines| && Verifies(h, lines[..i])
      invariant checked == expectedSeq == |Records(lines[..i])| && expectedPrev == TailHash(Records(lines[..i]))
    {
      var raw := lines[i];
      VerifiesSnoc(h, lines[..i], raw);
      RecordsSnoc(lines[..i], raw);
      assert lines[..i] + [raw] == lines[..i + 1];
      var reason := Fine;
      if raw.NotJson? {
        reason := InvalidJson;
      } else if raw.Object? {
        if !Complete(raw) {
          reason := MissingFields;
        } else if raw.seqNo.value != expectedSeq {
          reason := WrongSeq;
        } else if raw.prev.value != expectedPrev {
          reason := WrongPrev;
        } else if h(raw.seqNo.value, raw.prev.value, raw.event.value) != raw.hash.value {
          reason := WrongDigest;
        } else {
          checked := checked + 1;
          expectedSeq := expectedSeq + 1;
          expectedPrev := raw.hash.value;
        }
      }
      if !reason.Fine? {
        v := ChainVerification(false, checked, Some(i + 1), reason);
        if Verifies(h, lines) {
          TruncationVerifies(h, lines, i + 1);
        }
        return;
      }
      i := i + 1;
    }
    assert lines[..i] == lines;
    v := ChainVerification(true, checked, None, Fine);
  }

  // ---- Tamper evidence ----

  ghost predicate NoCollision<E(!new)>(h: Digest<E>, rs: seq<Line<E>>) {
    forall a, b :: a in rs && b in rs && Complete(a) && Complete(b)
      && h(a.seqNo.value, a.prev.value, a.event.value) == h(b.seqNo.value, b.prev.value, b.event.value)
      ==> a.seqNo == b.seqNo && a.prev == b.prev && a.event == b.event
  }

  lemma NoCollisionOfPrefixes<E(!new)>(h: Digest<E>, x: seq<Line<E>>, a: seq<Line<E>>, y: seq<Line<E>>, b: seq<Line<E>>)
    requires NoCollision(h, a + b) && x <= a && y <= b
    ensures NoCollision(h, x + y)
  {
    forall r | r in x + y ensures r in a + b {
      if r in x {
        var i :| 0 <= i < |x| && x[i] == r;
        assert a[i] == r;
      } else {
        var i :| 0 <= i < |y| && y[i] == r;
        assert b[i] == r;
      }
    }
  }

  lemma SameHashSameRecord<E(!new)>(h: Digest<E>, rs: seq<Line<E>>, a: Line<E>, b: Line<E>)
    requires NoCollision(h, rs) && a in rs && b in rs && Complete(a) && Complete(b)
    requires a.hash.value == b.hash.value
    requires a.hash.value == h(a.seqNo.value, a.prev.value, a.event.value)
    requires b.hash.value == h(b.seqNo.value, b.prev.value, b.event.value)
    ensures a == b
  {
  }

  lemma ChainedLast<E(!new)>(h: Digest<E>, rs: seq<Line<E>>)
    requires rs != [] && Chained(h, rs)
    ensures var m := |rs| - 1;
            Chained(h, rs[..m]) && Linked(h, rs[m], m, TailHash(rs[..m])) && TailHash(rs) == rs[m].hash.value
  {
  }

  lemma {:induction false} SameHashSameChain<E(!new)>(h: Digest<E>, a: seq<Line<E>>, b: seq<Line<E>>)
    requires a != [] && b != [] && Chained(h, a) && Chained(h, b) && NoCollision(h, a + b)
    requires TailHash(a) == TailHash(b)
    ensures a == b
    decreases |a|
  {
    hide NoCollision, Chained, TailHash;
    var m, n := |a| - 1, |b| - 1;
    ChainedLast(h, a);
    ChainedLast(h, b);
    assert a[m] in a + b && b[n] in a + b by {
      assert (a + b)[m] == a[m] && (a + b)[|a| + n] == b[n];
    }
    SameHashSameRecord(h, a + b, a[m], b[n]);
    if m > 0 {
      NoCollisionOfPrefixes(h, a[..m], a, b[..m], b);
      SameHashSameChain(h, a[..m], b[..m]);
    }
    assert a == a[..m] + [a[m]] && b == b[..n] + [b[n]];
  }

  lemma {:induction false} ChainedPrefix<E(!new)>(h: Digest<E>, rs: seq<Line<E>>, k: nat)
    requires Chained(h, rs) && k <= |rs|
    ensures Chained(h, rs[..k])
    decreases |rs|
  {
    if k < |rs| {
      ChainedPrefix(h, rs[..|rs| - 1], k);
      assert rs[..|rs| - 1][..k] == rs[..k];
    } else {
      assert rs[..k] == rs;
    }
  }

  lemma {:induction false} ChainedComplete<E(!new)>(h: Digest<E>, rs: seq<Line<E>>, k: nat)
    requires Chained(h, rs) && k < |rs|
    ensures Complete(rs[k])
    decreases |rs|
  {
    if k < |rs| - 1 {
      ChainedComplete(h, rs[..|rs| - 1], k);
    }
  }

  // Two verifying logs that carry the same hash anywhere carry it at the same index, and agree on
  // every record up to there.
  lemma SameHashSameHistory<E(!new)>(h: Digest<E>, a: seq<Line<E>>, i: nat, b: seq<Line<E>>, j: nat)
    requires Verifies(h, a) && Verifies(h, b) && NoCollision(h, Records(a) + Records(b))
    requires i < |Records(a)| && j < |Records(b)|
    requires Records(a)[i].Object? && Records(b)[j].Object? && Records(a)[i].hash == Records(b)[j].hash
    ensures i == j && Records(a)[..i + 1] == Records(b)[..j + 1]
  {
    hide NoCollision;
    SameHashSamePrefix(h, Records(a), i, Records(b), j);
  }

  lemma TailHashOfPrefix<E(!new)>(h: Digest<E>, rs: seq<Line<E>>, k: nat)
    requires Chained(h, rs) && k < |rs|
    ensures rs[k].Object? && rs[k].hash == Some(TailHash(rs[..k + 1]))
  {
    ChainedComplete(h, rs, k);
    assert rs[..k + 1][k] == rs[k];
  }

  lemma SameHashSamePrefix<E(!new)>(h: Digest<E>, a: seq<Line<E>>, i: nat, b: seq<Line<E>>, j: nat)
    requires i < |a| && j < |b| && Chained(h, a) && Chained(h, b) && NoCollision(h, a + b)
    requires a[i].Object? && b[j].Object? && a[i].hash == b[j].hash
    ensures i == j && a[..i + 1] == b[..j + 1]
  {
    hide NoCollision, Chained, TailHash;
    var x, y := a[..i + 1], b[..j + 1];
    ChainedPrefix(h, a, i + 1);
    ChainedPrefix(h, b, j + 1);
    TailHashOfPrefix(h, a, i);
    TailHashOfPrefix(h, b, j);
    NoCollisionOfPrefixes(h, x, a, y, b);
    SameHashSameChain(h, x, y);
    assert |x| == |y|;
  }

  // A verifying log is determined by its length and its last hash: an anchor outside the file
  // that holds both leaves nothing to rewrite.
  lemma AnchorDeterminesLog<E(!new)>(h: Digest<E>, a: seq<Line<E>>, b: seq<Line<E>>)
    requires Verifies(h, a) && Verifies(h, b) && NoCollision(h, Records(a) + Records(b))
    requires |Records(a)| == |Records(b)| && TailHash(Records(a)) == TailHash(Records(b))
    ensures Records(a) == Records(b)
  {
    if Records(a) != [] {
      SameHashSameChain(h, Records(a), Records(b));
    }
  }

  // A verifying head that ends in an original record is the original history.
  lemma KeptRecord<E(!new)>(h: Digest<E>, original: seq<Line<E>>, j: nat, tampered: seq<Line<E>>, k: nat)
    requires Verifies(h, original) && NoCollision(h, Records(tampered) + Records(original))
    requires j < |Records(original)| && k < |tampered| && tampered[k] == Records(original)[j]
    requires Verifies(h, tampered[..k + 1])
    ensures Records(tampered[..k + 1]) == Records(original)[..j + 1]
  {
    hide NoCollision, Chained, Linked, Records;
    var rs, x := Records(original), Records(tampered[..k + 1]);
    ChainedComplete(h, rs, j);
    RecordsSnoc(tampered[..k], tampered[k]);
    assert tampered[..k] + [tampered[k]] == tampered[..k + 1];
    RecordsOfPrefix(tampered, k + 1);
    NoCollisionOfPrefixes(h, x, Records(tampered), rs, rs);
    assert x[|x| - 1] == rs[j] && x[..|x|] == x;
    SameHashSamePrefix(h, x, |x| - 1, rs, j);
  }

  // Whatever was edited, deleted, inserted or reordered: if line k still is the original record j,
  // then either everything up to it is the original history, or verification fails at or before it.
  lemma TamperingIsCaught<E(!new)>(h: Digest<E>, original: seq<Line<E>>, j: nat, tampered: seq<Line<E>>, k: nat)
    returns (broken: nat)
    requires Verifies(h, original) && NoCollision(h, Records(tampered) + Records(original))
    requires j < |Records(original)| && k < |tampered| && tampered[k] == Records(original)[j]
    requires Records(tampered[..k + 1]) != Records(original)[..j + 1]
    ensures BrokenAt(h, tampered, broken) && broken <= k + 1
  {
    hide NoCollision, Chained, Linked, Records;
    var head := tampered[..k + 1];
    if Verifies(h, head) {
      KeptRecord(h, original, j, tampered, k);
      assert false;
    }
    broken := NotVerifyingBreaks(h, head);
    assert head[..broken] == tampered[..broken] && head[..broken - 1] == tampered[..broken - 1];
  }

  lemma {:induction false} RecordsOfPrefix<E(!new)>(lines: seq<Line<E>>, k: nat)
    requires k <= |lines|
    ensures Records(lines[..k]) <= Records(lines)
    decreases |lines|
  {
    if k < |lines| {
      var init := lines[..|lines| - 1];
      RecordsOfPrefix(init, k);
      assert init[..k] == lines[..k];
    } else {
      assert lines[..k] == lines;
    }
  }

  // ---- Appending ----

  // `torn`: the last line lacks its newline, so whatever is appended lands on the same line.
  datatype File<E> = File(lines: seq<Line<E>>, torn: bool)

  predicate Clean<E>(f: File<E>) {
    f.torn && f.lines != [] ==> f.lines[|f.lines| - 1].Blank?
  }

  // A record glued to other text is one line that is not JSON.
  function Append<E>(f: File<E>, r: Line<E>): File<E> {
    if f.torn && f.lines != [] then
      var n := |f.lines| - 1;
      File(f.lines[..n] + [if f.lines[n].Blank? then r else NotJson], false)
    else File(f.lines + [r], false)
  }

  // One record appended to any file keeps it verifying exactly when the file verified, its last
  // line was not torn, and the record continues the chain.
  lemma AppendVerifies<E(!new)>(h: Digest<E>, f: File<E>, r: Line<E>)
    requires r.Object?
    ensures Verifies(h, Append(f, r).lines)
       <==> Verifies(h, f.lines) && Clean(f) && Linked(h, r, |Records(f.lines)|, TailHash(Records(f.lines)))
    ensures Clean(f) ==> Records(Append(f, r).lines) == Records(f.lines) + [r]
    ensures Clean(Append(f, r))
  {
    if f.torn && f.lines != [] {
      var n := |f.lines| - 1;
      var init := f.lines[..n];
      assert f.lines == init + [f.lines[n]];
      VerifiesSnoc(h, init, f.lines[n]);
      VerifiesSnoc(h, init, if f.lines[n].Blank? then r else NotJson);
      RecordsSnoc(init, r);
    } else {
      VerifiesSnoc(h, f.lines, r);
      RecordsSnoc(f.lines, r);
    }
  }

  // Damage stays visible where it is: nothing appended later moves or hides the first bad line.
  lemma DamageStays<E(!new)>(h: Digest<E>, f: File<E>, r: Line<E>, k: nat)
    requires BrokenAt(h, f.lines, k) && r.Object?
    ensures BrokenAt(h, Append(f, r).lines, k)
  {
    hide Records;
    var after := Append(f, r).lines;
    if f.torn && k == |f.lines| && f.lines != [] {
      var n := |f.lines| - 1;
      var init := f.lines[..n];
      assert f.lines == init + [f.lines[n]] && f.lines[..k] == f.lines;
      VerifiesSnoc(h, init, f.lines[n]);
      VerifiesSnoc(h, init, NotJson);
      assert after[..k] == init + [NotJson] && after[..k - 1] == init;
    } else {
      assert after[..k] == f.lines[..k] && after[..k - 1] == f.lines[..k - 1];
    }
  }
}
