/**
 The sink that writes the audit file: one chain per file, one cursor per run.

 `Trail` is the sink's state as a value, `TelemetrySink` the object that updates it in place.
 `tagged` is history: which run each written record came from, in order.
 */
module AuditSink {
  import opened Prelude
  import opened AuditLog

  type RunId = string

  datatype Trail<E> = Trail(file: File<E>, seqNo: int, prevHash: Hash, emitted: map<RunId, nat>,
      tagged: seq<(RunId, E)>)

  function Cursor<E>(t: Trail<E>, run: RunId): nat {
    if run in t.emitted then t.emitted[run] else 0
  }

  function WriteOne<E>(h: Digest<E>, t: Trail<E>, run: RunId, e: E): Trail<E> {
    var hash := h(t.seqNo, t.prevHash, e);
    Trail(Append(t.file, Record(t.seqNo, t.prevHash, hash, e)), t.seqNo + 1, hash, t.emitted, t.tagged + [(run, e)])
  }

  function WriteAll<E>(h: Digest<E>, t: Trail<E>, run: RunId, es: seq<E>): Trail<E> {
    if es == [] then t else WriteOne(h, WriteAll(h, t, run, es[..|es| - 1]), run, es[|es| - 1])
  }

  // events[cursor:], which is empty when the list is shorter than the cursor.
  function NewEvents<E>(t: Trail<E>, run: RunId, events: seq<E>): seq<E> {
    if Cursor(t, run) <= |events| then events[Cursor(t, run)..] else []
  }

  function Flush<E>(h: Digest<E>, t: Trail<E>, run: RunId, events: seq<E>): Trail<E> {
    var newEvents := NewEvents(t, run, events);
    if newEvents == [] then t
    else WriteAll(h, t, run, newEvents).(emitted := t.emitted[run := |events|])
  }

  // Where a sink built on an existing file continues: after its last record, or at genesis when
  // that line cannot be read.
  function ResumePoint<E>(lines: seq<Line<E>>): (int, Hash) {
    var rs := Records(lines);
    if rs == [] then (0, GENESIS_HASH)
    else
      var last := rs[|rs| - 1];
      if last.Object? && last.seqNo.Some? && last.hash.Some? then (last.seqNo.value + 1, last.hash.value)
      else (0, GENESIS_HASH)
  }

  function Reopen<E>(file: File<E>, tagged: seq<(RunId, E)>): Trail<E> {
    var p := ResumePoint(file.lines);
    Trail(file, p.0, p.1, map[], tagged)
  }

  // ---- Operations, and what they add up to ----

  // Killed: the process dies after k of the flush's records reached the file, and a new one starts.
  // Torn: so it does, and of the next record a fragment reached the file too, or all but its newline.
  datatype Op<E> =
    | FlushRun(run: RunId, events: seq<E>)
    | ForgetRun(run: RunId)
    | Restarted
    | Killed(run: RunId, events: seq<E>, k: nat)
    | Torn(run: RunId, events: seq<E>, k: nat, fragment: bool)

  // Text without a newline: a line of its own, or glued to a last line that has none either.
  function Tear<E>(f: File<E>, line: Line<E>): File<E> {
    if f.torn && f.lines != [] then
      var n := |f.lines| - 1;
      File(f.lines[..n] + [if f.lines[n].Blank? then line else NotJson], true)
    else File(f.lines + [line], true)
  }

  function WriteSome<E>(h: Digest<E>, t: Trail<E>, run: RunId, events: seq<E>, k: nat): Trail<E> {
    var newEvents := NewEvents(t, run, events);
    WriteAll(h, t, run, newEvents[..Min(k, |newEvents|)])
  }

  predicate Tears<E>(t: Trail<E>, op: Op<E>) {
    op.Torn? && op.k < |NewEvents(t, op.run, op.events)|
  }

  function TearNext<E>(h: Digest<E>, t: Trail<E>, run: RunId, e: E, fragment: bool): Trail<E> {
    var r := Record(t.seqNo, t.prevHash, h(t.seqNo, t.prevHash, e), e);
    var torn := t.(file := Tear(t.file, if fragment then NotJson else r));
    if fragment then torn else torn.(tagged := t.tagged + [(run, e)])
  }

  function Do<E>(h: Digest<E>, t: Trail<E>, op: Op<E>): Trail<E> {
    match op
    case FlushRun(run, events) => Flush(h, t, run, events)
    case ForgetRun(run) => t.(emitted := t.emitted - {run})
    case Restarted => Reopen(t.file, t.tagged)
    case Killed(run, events, k) =>
      var written := WriteSome(h, t, run, events, k);
      Reopen(written.file, written.tagged)
    case Torn(run, events, k, fragment) =>
      var written := WriteSome(h, t, run, events, k);
      var left := if Tears(t, op) then TearNext(h, written, run, NewEvents(t, run, events)[k], fragment) else written;
      Reopen(left.file, left.tagged)
  }

  function DoAll<E>(h: Digest<E>, t: Trail<E>, ops: seq<Op<E>>): Trail<E> {
    if ops == [] then t else Do(h, DoAll(h, t, ops[..|ops| - 1]), ops[|ops| - 1])
  }

  // ---- The chain ----

  // The sink is ready to continue the chain its file holds.
  ghost predicate InStep<E(!new)>(h: Digest<E>, t: Trail<E>) {
    && Verifies(h, t.file.lines) && Clean(t.file)
    && t.seqNo == |Records(t.file.lines)|
    && t.prevHash == TailHash(Records(t.file.lines))
  }

  function EventsOf<E>(rs: seq<Line<E>>): seq<Option<E>> {
    seq(|rs|, i requires 0 <= i < |rs| => if rs[i].Object? then rs[i].event else None)
  }

  function Written<E>(tagged: seq<(RunId, E)>): seq<Option<E>> {
    seq(|tagged|, i requires 0 <= i < |tagged| => Some(tagged[i].1))
  }

  lemma ReopenInStep<E(!new)>(h: Digest<E>, file: File<E>, tagged: seq<(RunId, E)>)
    requires Verifies(h, file.lines) && Clean(file)
    ensures InStep(h, Reopen(file, tagged))
  {
  }

  // Everything in the file came from before, or was written by the sink, in order.
  ghost predicate Accounted<E(!new)>(start: File<E>, t: Trail<E>) {
    EventsOf(Records(t.file.lines)) == EventsOf(Records(start.lines)) + Written(t.tagged)
  }

  lemma EventsOfSnoc<E(!new)>(rs: seq<Line<E>>, n: int, prev: Hash, hash: Hash, tagged: seq<(RunId, E)>, run: RunId,
      e: E)
    ensures EventsOf(rs + [Record(n, prev, hash, e)]) == EventsOf(rs) + [Some(e)]
    ensures Written(tagged + [(run, e)]) == Written(tagged) + [Some(e)]
  {
  }

  lemma WriteOneInStep<E(!new)>(h: Digest<E>, start: File<E>, t: Trail<E>, run: RunId, e: E)
    requires InStep(h, t) && Accounted(start, t)
    ensures InStep(h, WriteOne(h, t, run, e)) && Accounted(start, WriteOne(h, t, run, e))
  {
    hide Verifies, Append, Records, Clean, EventsOf, Written;
    var rs, hash := Records(t.file.lines), h(t.seqNo, t.prevHash, e);
    AppendVerifies(h, t.file, Record(t.seqNo, t.prevHash, hash, e));
    EventsOfSnoc(rs, t.seqNo, t.prevHash, hash, t.tagged, run, e);
    var before := EventsOf(Records(start.lines));
    assert before + Written(t.tagged) + [Some(e)] == before + (Written(t.tagged) + [Some(e)]);
  }

  lemma {:induction false} WriteAllInStep<E(!new)>(h: Digest<E>, start: File<E>, t: Trail<E>, run: RunId, es: seq<E>)
    requires InStep(h, t) && Accounted(start, t)
    ensures InStep(h, WriteAll(h, t, run, es)) && Accounted(start, WriteAll(h, t, run, es))
    decreases |es|
  {
    hide InStep, Accounted, WriteOne;
    if es != [] {
      WriteAllInStep(h, start, t, run, es[..|es| - 1]);
      WriteOneInStep(h, start, WriteAll(h, t, run, es[..|es| - 1]), run, es[|es| - 1]);
    }
  }

  lemma NothingWritten<E(!new)>(start: File<E>, t: Trail<E>)
    requires t.file == start && t.tagged == []
    ensures Accounted(start, t)
  {
  }

  lemma SomeInStep<E(!new)>(h: Digest<E>, start: File<E>, t: Trail<E>, run: RunId, events: seq<E>, k: nat)
    requires InStep(h, t) && Accounted(start, t)
    ensures InStep(h, WriteSome(h, t, run, events, k)) && Accounted(start, WriteSome(h, t, run, events, k))
  {
    var newEvents := NewEvents(t, run, events);
    WriteAllInStep(h, start, t, run, newEvents[..Min(k, |newEvents|)]);
  }

  lemma DoInStep<E(!new)>(h: Digest<E>, start: File<E>, t: Trail<E>, op: Op<E>)
    requires InStep(h, t) && Accounted(start, t) && !Tears(t, op)
    ensures InStep(h, Do(h, t, op)) && Accounted(start, Do(h, t, op))
  {
    hide WriteSome, WriteAll;
    match op
    case FlushRun(run, events) => WriteAllInStep(h, start, t, run, NewEvents(t, run, events));
    case ForgetRun(_) =>
    case Restarted => ReopenInStep(h, t.file, t.tagged);
    case Killed(run, events, k) => SomeReopened(h, start, t, run, events, k);
    case Torn(run, events, k, _) => SomeReopened(h, start, t, run, events, k);
  }

  lemma SomeReopened<E(!new)>(h: Digest<E>, start: File<E>, t: Trail<E>, run: RunId, events: seq<E>, k: nat)
    requires InStep(h, t) && Accounted(start, t)
    ensures var u := WriteSome(h, t, run, events, k);
            InStep(h, Reopen(u.file, u.tagged)) && Accounted(start, Reopen(u.file, u.tagged))
  {
    hide WriteSome;
    SomeInStep(h, start, t, run, events, k);
    var u := WriteSome(h, t, run, events, k);
    ReopenInStep(h, u.file, u.tagged);
  }

  // ---- How the file fares ----

  // Dangling: its last record lacks the newline.  Ruined: some line is no record of the chain.
  datatype Health = Whole | Dangling | Ruined

  predicate Writes<E>(t: Trail<E>, op: Op<E>) {
    match op
    case FlushRun(run, events) => NewEvents(t, run, events) != []
    case Killed(run, events, k) => k > 0 && NewEvents(t, run, events) != []
    case Torn(run, events, _, _) => NewEvents(t, run, events) != []
    case _ => false
  }

  // A fragment ruins the file at once; a lost newline only when something is written after it.
  function HealthAfter<E>(health: Health, t: Trail<E>, op: Op<E>): Health {
    match health
    case Whole => if !Tears(t, op) then Whole else if op.fragment then Ruined else Dangling
    case Dangling => if Writes(t, op) then Ruined else Dangling
    case Ruined => Ruined
  }

  function HealthOf<E>(h: Digest<E>, start: File<E>, ops: seq<Op<E>>): Health {
    if ops == [] then Whole
    else
      var init := ops[..|ops| - 1];
      HealthAfter(HealthOf(h, start, init), DoAll(h, Reopen(start, []), init), ops[|ops| - 1])
  }

  ghost predicate Fares<E(!new)>(h: Digest<E>, start: File<E>, t: Trail<E>, health: Health) {
    match health
    case Whole => InStep(h, t) && Accounted(start, t)
    case Dangling => Verifies(h, t.file.lines) && !Clean(t.file) && Accounted(start, t)
    case Ruined => !Verifies(h, t.file.lines)
  }

  lemma TornLines<E(!new)>(h: Digest<E>, f: File<E>, line: Line<E>)
    requires Verifies(h, f.lines) && Clean(f) && !line.Blank?
    ensures var after := Tear(f, line);
            && Records(after.lines) == Records(f.lines) + [line] && !Clean(after)
            && (Verifies(h, after.lines) <==> Linked(h, line, |Records(f.lines)|, TailHash(Records(f.lines))))
  {
    var init := if f.torn && f.lines != [] then f.lines[..|f.lines| - 1] else f.lines;
    CleanTear(h, f, init);
    VerifiesSnoc(h, init, line);
    RecordsSnoc(init, line);
    hide Verifies, Records;
    assert Tear(f, line).lines == init + [line];
  }

  // A clean file is its lines, but for a blank last one.
  lemma CleanTear<E(!new)>(h: Digest<E>, f: File<E>, init: seq<Line<E>>)
    requires Clean(f) && init == if f.torn && f.lines != [] then f.lines[..|f.lines| - 1] else f.lines
    ensures Records(init) == Records(f.lines) && (Verifies(h, init) <==> Verifies(h, f.lines))
  {
  }

  lemma TornDangles<E(!new)>(h: Digest<E>, start: File<E>, t: Trail<E>, run: RunId, e: E, fragment: bool)
    requires InStep(h, t) && Accounted(start, t)
    ensures var left := TearNext(h, t, run, e, fragment);
            Fares(h, start, Reopen(left.file, left.tagged), if fragment then Ruined else Dangling)
  {
    hide Verifies, Records, Tear, Clean, EventsOf, Written, ResumePoint;
    var rs, hash := Records(t.file.lines), h(t.seqNo, t.prevHash, e);
    if fragment {
      TornLines(h, t.file, NotJson);
    } else {
      TornLines(h, t.file, Record(t.seqNo, t.prevHash, hash, e));
      EventsOfSnoc(rs, t.seqNo, t.prevHash, hash, t.tagged, run, e);
      var before := EventsOf(Records(start.lines));
      assert before + Written(t.tagged) + [Some(e)] == before + (Written(t.tagged) + [Some(e)]);
    }
  }

  lemma FirstWriteRuins<E(!new)>(h: Digest<E>, t: Trail<E>, run: RunId, es: seq<E>)
    requires Verifies(h, t.file.lines) && !Clean(t.file) && es != []
    ensures !Verifies(h, WriteAll(h, t, run, es).file.lines)
    decreases |es|
  {
    var n := |es| - 1;
    var u := WriteAll(h, t, run, es[..n]);
    var r := Record(u.seqNo, u.prevHash, h(u.seqNo, u.prevHash, es[n]), es[n]);
    AppendVerifies(h, u.file, r);
    if n > 0 {
      FirstWriteRuins(h, t, run, es[..n]);
    }
  }

  lemma {:induction false} RuinStays<E(!new)>(h: Digest<E>, t: Trail<E>, run: RunId, es: seq<E>)
    requires !Verifies(h, t.file.lines)
    ensures !Verifies(h, WriteAll(h, t, run, es).file.lines)
    decreases |es|
  {
    if es != [] {
      var n := |es| - 1;
      var u := WriteAll(h, t, run, es[..n]);
      RuinStays(h, t, run, es[..n]);
      AppendVerifies(h, u.file, Record(u.seqNo, u.prevHash, h(u.seqNo, u.prevHash, es[n]), es[n]));
    }
  }

  lemma TearRuins<E(!new)>(h: Digest<E>, f: File<E>, line: Line<E>)
    requires !Verifies(h, f.lines) || !Clean(f)
    ensures !Verifies(h, Tear(f, line).lines)
  {
    if f.torn && f.lines != [] {
      var n := |f.lines| - 1;
      assert f.lines == f.lines[..n] + [f.lines[n]];
      VerifiesSnoc(h, f.lines[..n], f.lines[n]);
      VerifiesSnoc(h, f.lines[..n], if f.lines[n].Blank? then line else NotJson);
    } else {
      VerifiesSnoc(h, f.lines, line);
    }
  }

  lemma FaresNext<E(!new)>(h: Digest<E>, start: File<E>, t: Trail<E>, health: Health, op: Op<E>)
    requires Fares(h, start, t, health)
    ensures Fares(h, start, Do(h, t, op), HealthAfter(health, t, op))
  {
    hide Verifies, Accounted, Records, WriteAll;
    match health
    case Whole =>
      if Tears(t, op) {
        SomeInStep(h, start, t, op.run, op.events, op.k);
        TornDangles(h, start, WriteSome(h, t, op.run, op.events, op.k), op.run, NewEvents(t, op.run, op.events)[op.k],
            op.fragment);
      } else {
        DoInStep(h, start, t, op);
      }
    case Dangling => DanglingNext(h, start, t, op);
    case Ruined => RuinedNext(h, start, t, op);
  }

  lemma DanglingNext<E(!new)>(h: Digest<E>, start: File<E>, t: Trail<E>, op: Op<E>)
    requires Fares(h, start, t, Dangling)
    ensures Fares(h, start, Do(h, t, op), HealthAfter(Dangling, t, op))
  {
    hide Verifies, Accounted, Records, WriteAll, Clean;
    match op
    case FlushRun(run, events) =>
      if Writes(t, op) {
        FirstWriteRuins(h, t, run, NewEvents(t, run, events));
      }
    case ForgetRun(_) => SameFile(h, start, t, Do(h, t, op));
    case Restarted => SameFile(h, start, t, Do(h, t, op));
    case Killed(run, events, k) => SomeAfterDangling(h, start, t, run, events, k);
    case Torn(run, events, k, fragment) =>
      SomeAfterDangling(h, start, t, run, events, k);
      if Tears(t, op) {
        var u, e := WriteSome(h, t, run, events, k), NewEvents(t, run, events)[k];
        TearRuins(h, u.file, if fragment then NotJson else Record(u.seqNo, u.prevHash, h(u.seqNo, u.prevHash, e), e));
      }
  }

  lemma SameFile<E(!new)>(h: Digest<E>, start: File<E>, t: Trail<E>, u: Trail<E>)
    requires Fares(h, start, t, Dangling) && u.file == t.file && u.tagged == t.tagged
    ensures Fares(h, start, u, Dangling)
  {
  }

  lemma SomeAfterDangling<E(!new)>(h: Digest<E>, start: File<E>, t: Trail<E>, run: RunId, events: seq<E>, k: nat)
    requires Fares(h, start, t, Dangling)
    ensures var u := WriteSome(h, t, run, events, k);
            if k > 0 && NewEvents(t, run, events) != [] then !Verifies(h, u.file.lines)
            else Fares(h, start, Reopen(u.file, u.tagged), Dangling) && u == t
  {
    hide Verifies, Records, Clean;
    var newEvents := NewEvents(t, run, events);
    if k > 0 && newEvents != [] {
      hide WriteAll;
      FirstWriteRuins(h, t, run, newEvents[..Min(k, |newEvents|)]);
    } else {
      assert newEvents[..Min(k, |newEvents|)] == [];
      SameFile(h, start, t, Reopen(t.file, t.tagged));
    }
  }

  lemma RuinedNext<E(!new)>(h: Digest<E>, start: File<E>, t: Trail<E>, op: Op<E>)
    requires !Verifies(h, t.file.lines)
    ensures !Verifies(h, Do(h, t, op).file.lines)
  {
    hide Verifies, Records, WriteAll, Clean;
    match op
    case FlushRun(run, events) => RuinStays(h, t, run, NewEvents(t, run, events));
    case ForgetRun(_) =>
    case Restarted =>
    case Killed(run, events, k) => RuinStays(h, t, run,
        NewEvents(t, run, events)[..Min(k, |NewEvents(t, run, events)|)]);
    case Torn(run, events, k, fragment) =>
      RuinStays(h, t, run, NewEvents(t, run, events)[..Min(k, |NewEvents(t, run, events)|)]);
      if Tears(t, op) {
        var u, e := WriteSome(h, t, run, events, k), NewEvents(t, run, events)[k];
        TearRuins(h, u.file, if fragment then NotJson else Record(u.seqNo, u.prevHash, h(u.seqNo, u.prevHash, e), e));
      }
  }

  lemma {:induction false} FaresAll<E(!new)>(h: Digest<E>, start: File<E>, ops: seq<Op<E>>)
    requires Verifies(h, start.lines) && Clean(start)
    ensures Fares(h, start, DoAll(h, Reopen(start, []), ops), HealthOf(h, start, ops))
    decreases |ops|
  {
    hide Fares;
    if ops == [] {
      StartsWhole(h, start);
    } else {
      var init := ops[..|ops| - 1];
      FaresAll(h, start, init);
      FaresNext(h, start, DoAll(h, Reopen(start, []), init), HealthOf(h, start, init), ops[|ops| - 1]);
    }
  }

  lemma StartsWhole<E(!new)>(h: Digest<E>, start: File<E>)
    requires Verifies(h, start.lines) && Clean(start)
    ensures Fares(h, start, Reopen(start, []), Whole)
  {
    ReopenInStep(h, start, []);
    NothingWritten(start, Reopen(start, []));
  }

  // Whatever the sink goes through from an empty or verifying file (flushes, forgets, interleaved
  // runs, restarts, kills): the file verifies exactly when no kill left a fragment of a record and
  // nothing was written after one that left a record without its newline.  A file that verifies
  // holds the records that were there and then exactly the records written.
  lemma WhatIsWrittenVerifies<E(!new)>(h: Digest<E>, start: File<E>, ops: seq<Op<E>>)
    requires Verifies(h, start.lines) && Clean(start)
    ensures var t := DoAll(h, Reopen(start, []), ops);
            && (Verifies(h, t.file.lines) <==> !HealthOf(h, start, ops).Ruined?)
            && (Verifies(h, t.file.lines) ==>
                  && |Records(t.file.lines)| == |Records(start.lines)| + |t.tagged|
                  && EventsOf(Records(t.file.lines)) == EventsOf(Records(start.lines)) + Written(t.tagged))
  {
    hide Verifies, Records, Clean;
    FaresAll(h, start, ops);
    var t := DoAll(h, Reopen(start, []), ops);
    if Verifies(h, t.file.lines) {
      assert |EventsOf(Records(t.file.lines))| == |EventsOf(Records(start.lines)) + Written(t.tagged)|;
    }
  }

  // In particular without torn kills.
  lemma {:induction false} UntornIsWhole<E(!new)>(h: Digest<E>, start: File<E>, ops: seq<Op<E>>)
    requires forall k :: 0 <= k < |ops| ==> !ops[k].Torn?
    ensures HealthOf(h, start, ops).Whole?
    decreases |ops|
  {
    if ops != [] {
      UntornIsWhole(h, start, ops[..|ops| - 1]);
    }
  }

  // Starting from a file whose last line lost its newline, the first record written is lost in it:
  // the file stops verifying there, for good.
  lemma TornTailBreaks<E(!new)>(h: Digest<E>, start: File<E>, run: RunId, e: E)
    requires Verifies(h, start.lines) && !Clean(start)
    ensures BrokenAt(h, Flush(h, Reopen(start, []), run, [e]).file.lines, |start.lines|)
  {
    var t := Reopen(start, []);
    assert NewEvents(t, run, [e]) == [e] && [e][..0] == [];
    var n := |start.lines| - 1;
    var init := start.lines[..n];
    assert start.lines == init + [start.lines[n]];
    VerifiesSnoc(h, init, start.lines[n]);
    VerifiesSnoc(h, init, NotJson);
    var after := Flush(h, t, run, [e]).file.lines;
    assert WriteAll(h, t, run, [e]) == WriteOne(h, WriteAll(h, t, run, [e][..0]), run, e);
    assert after == init + [NotJson];
    assert after[..|start.lines|] == after && after[..|start.lines| - 1] == init;
  }

  lemma {:induction false} WritesKeepDamage<E(!new)>(h: Digest<E>, t: Trail<E>, run: RunId, es: seq<E>, k: nat)
    requires BrokenAt(h, t.file.lines, k)
    ensures BrokenAt(h, WriteAll(h, t, run, es).file.lines, k)
    decreases |es|
  {
    if es != [] {
      var u := WriteAll(h, t, run, es[..|es| - 1]);
      WritesKeepDamage(h, t, run, es[..|es| - 1], k);
      DamageStays(h, u.file, Record(u.seqNo, u.prevHash, h(u.seqNo, u.prevHash, es[|es| - 1]), es[|es| - 1]), k);
    }
  }

  lemma TearKeepsDamage<E(!new)>(h: Digest<E>, f: File<E>, line: Line<E>, k: nat)
    requires BrokenAt(h, f.lines, k)
    ensures BrokenAt(h, Tear(f, line).lines, k)
  {
    hide Records;
    var after := Tear(f, line).lines;
    if f.torn && k == |f.lines| && f.lines != [] {
      var n := |f.lines| - 1;
      assert f.lines == f.lines[..n] + [f.lines[n]] && f.lines[..k] == f.lines;
      VerifiesSnoc(h, f.lines[..n], f.lines[n]);
      VerifiesSnoc(h, f.lines[..n], NotJson);
      assert after[..k] == f.lines[..n] + [NotJson] && after[..k - 1] == f.lines[..n];
    } else {
      assert after[..k] == f.lines[..k] && after[..k - 1] == f.lines[..k - 1];
    }
  }

  // A file that fails at line k fails at line k whatever is appended to it.
  lemma {:induction false} DamageIsPermanent<E(!new)>(h: Digest<E>, start: File<E>, ops: seq<Op<E>>, k: nat)
    requires BrokenAt(h, start.lines, k)
    ensures BrokenAt(h, DoAll(h, Reopen(start, []), ops).file.lines, k)
    decreases |ops|
  {
    if ops != [] {
      var t := DoAll(h, Reopen(start, []), ops[..|ops| - 1]);
      DamageIsPermanent(h, start, ops[..|ops| - 1], k);
      match ops[|ops| - 1]
      case FlushRun(run, events) => WritesKeepDamage(h, t, run, NewEvents(t, run, events), k);
      case Killed(run, events, j) =>
        WritesKeepDamage(h, t, run, NewEvents(t, run, events)[..Min(j, |NewEvents(t, run, events)|)], k);
      case Torn(run, events, j, fragment) => TornKeepsDamage(h, t, ops[|ops| - 1], k);
      case _ =>
    }
  }

  lemma TornKeepsDamage<E(!new)>(h: Digest<E>, t: Trail<E>, op: Op<E>, k: nat)
    requires op.Torn? && BrokenAt(h, t.file.lines, k)
    ensures BrokenAt(h, Do(h, t, op).file.lines, k)
  {
    var run, events, j, fragment := op.run, op.events, op.k, op.fragment;
    WritesKeepDamage(h, t, run, NewEvents(t, run, events)[..Min(j, |NewEvents(t, run, events)|)], k);
    if Tears(t, op) {
      var u, e := WriteSome(h, t, run, events, j), NewEvents(t, run, events)[j];
      TearKeepsDamage(h, u.file, if fragment then NotJson
          else Record(u.seqNo, u.prevHash, h(u.seqNo, u.prevHash, e), e), k);
    }
  }

  // What the chain does not show: any events at all can be made into a file that verifies.
  lemma RewriteVerifies<E(!new)>(h: Digest<E>, run: RunId, events: seq<E>)
    ensures var lines := WriteAll(h, Reopen(File([], false), []), run, events).file.lines;
            Verifies(h, lines) && |Records(lines)| == |events|
  {
    var blank: Trail<E> := Reopen(File([], false), []);
    NothingWritten(blank.file, blank);
    WriteAllInStep(h, blank.file, blank, run, events);
    WriteAllTags(h, blank, run, events);
    var t := WriteAll(h, blank, run, events);
    assert |EventsOf(Records(t.file.lines))| == |EventsOf<E>([]) + Written(t.tagged)|;
  }

  // ---- The cursor ----

  function Project<E>(tagged: seq<(RunId, E)>, run: RunId): seq<E> {
    if tagged == [] then []
    else
      var init := Project(tagged[..|tagged| - 1], run);
      var last := tagged[|tagged| - 1];
      if last.0 == run then init + [last.1] else init
  }

  // The last event list a run was flushed with.
  function LastFlushed<E>(ops: seq<Op<E>>, run: RunId): seq<E> {
    if ops == [] then []
    else
      var last := ops[|ops| - 1];
      if last.FlushRun? && last.run == run then last.events else LastFlushed(ops[..|ops| - 1], run)
  }

  // A run's event list only ever grows.
  ghost predicate Growing<E(!new)>(ops: seq<Op<E>>, run: RunId) {
    forall k :: 0 <= k < |ops| && (ops[k].FlushRun? || ops[k].Killed? || ops[k].Torn?) && ops[k].run == run ==>
      LastFlushed(ops[..k], run) <= ops[k].events
  }

  lemma {:induction false} WriteAllTags<E(!new)>(h: Digest<E>, t: Trail<E>, run: RunId, es: seq<E>)
    ensures var u := WriteAll(h, t, run, es);
            && |u.tagged| == |t.tagged| + |es| && u.emitted == t.emitted
            && Project(u.tagged, run) == Project(t.tagged, run) + es
            && forall other :: other != run ==> Project(u.tagged, other) == Project(t.tagged, other)
    decreases |es|
  {
    if es != [] {
      WriteAllTags(h, t, run, es[..|es| - 1]);
      var u := WriteAll(h, t, run, es[..|es| - 1]);
      assert (u.tagged + [(run, es[|es| - 1])])[..|u.tagged|] == u.tagged;
      assert es[..|es| - 1] + [es[|es| - 1]] == es;
    } else {
      assert Project(t.tagged, run) + es == Project(t.tagged, run);
    }
  }

  lemma GrowingInit<E(!new)>(ops: seq<Op<E>>, run: RunId)
    requires ops != [] && Growing(ops, run)
    ensures Growing(ops[..|ops| - 1], run)
    ensures var op := ops[|ops| - 1];
            (op.FlushRun? || op.Killed? || op.Torn?) && op.run == run ==>
                LastFlushed(ops[..|ops| - 1], run) <= op.events
  {
    var init := ops[..|ops| - 1];
    assert forall k :: 0 <= k < |init| ==> init[k] == ops[k] && init[..k] == ops[..k];
  }

  // However other runs interleave: between construction and its own forget, a run's records are
  // exactly its events, once each and in order.
  lemma {:induction false} RecordsAreTheRunsEvents<E(!new)>(h: Digest<E>, start: File<E>, ops: seq<Op<E>>, run: RunId)
    requires Growing(ops, run)
    requires forall k :: 0 <= k < |ops| ==> ops[k].FlushRun? || (ops[k].ForgetRun? && ops[k].run != run)
    ensures var t := DoAll(h, Reopen(start, []), ops);
            Project(t.tagged, run) == LastFlushed(ops, run) && Cursor(t, run) == |LastFlushed(ops, run)|
    decreases |ops|
  {
    if ops != [] {
      var init, op := ops[..|ops| - 1], ops[|ops| - 1];
      GrowingInit(ops, run);
      RecordsAreTheRunsEvents(h, start, init, run);
      var t := DoAll(h, Reopen(start, []), init);
      if op.FlushRun? {
        WriteAllTags(h, t, op.run, NewEvents(t, op.run, op.events));
        if op.run == run {
          assert op.events == LastFlushed(init, run) + NewEvents(t, run, op.events);
        }
      }
    }
  }

  // What survives restarts and kills in mid-flush: the run's whole list is still there, in one piece.
  ghost predicate Present<E(!new)>(t: Trail<E>, run: RunId, events: seq<E>, before: seq<E>, after: seq<E>) {
    && Project(t.tagged, run) == before + events + after
    && (Cursor(t, run) == 0 || (Cursor(t, run) == |events| && after == []))
  }

  lemma {:induction false} EveryEventStaysPresent<E(!new)>(h: Digest<E>, start: File<E>, ops: seq<Op<E>>, run: RunId)
    returns (before: seq<E>, after: seq<E>)
    requires Growing(ops, run)
    ensures Present(DoAll(h, Reopen(start, []), ops), run, LastFlushed(ops, run), before, after)
    decreases |ops|
  {
    if ops == [] {
      before, after := [], [];
    } else {
      var init, op := ops[..|ops| - 1], ops[|ops| - 1];
      GrowingInit(ops, run);
      before, after := EveryEventStaysPresent(h, start, init, run);
      before, after := StaysPresent(h, DoAll(h, Reopen(start, []), init), op, run, LastFlushed(init, run), before,
          after);
    }
  }

  lemma FlushStaysPresent<E(!new)>(h: Digest<E>, t: Trail<E>, es: seq<E>, run: RunId, events: seq<E>, before: seq<E>,
      after: seq<E>)
    returns (before': seq<E>, after': seq<E>)
    requires Present(t, run, events, before, after) && events <= es
    ensures Present(Flush(h, t, run, es), run, es, before', after')
  {
    var news := NewEvents(t, run, es);
    WriteAllTags(h, t, run, news);
    hide WriteAll, Project;
    if Cursor(t, run) == |events| && after == [] {
      before', after' := before, [];
      assert es == events + news;
      assert before + es + [] == before + events + after + news;
    } else if es == [] {
      before', after' := before + after, [];
      assert before + events + after == before + after + es + [];
    } else {
      before', after' := before + events + after, [];
      assert news == es;
      assert before' + es + after' == before + events + after + es;
    }
  }

  lemma KillStaysPresent<E(!new)>(h: Digest<E>, t: Trail<E>, es: seq<E>, k: nat, run: RunId, events: seq<E>,
      before: seq<E>, after: seq<E>)
    returns (after': seq<E>)
    requires Present(t, run, events, before, after)
    ensures Present(Do(h, t, Killed(run, es, k)), run, events, before, after')
  {
    var news := NewEvents(t, run, es)[..Min(k, |NewEvents(t, run, es)|)];
    WriteAllTags(h, t, run, news);
    hide WriteAll, Project;
    after' := after + news;
    assert before + events + after + news == before + events + (after + news);
  }

  lemma ProjectSnoc<E(!new)>(tagged: seq<(RunId, E)>, r: RunId, e: E, run: RunId)
    ensures Project(tagged + [(r, e)], run) == Project(tagged, run) + if r == run then [e] else []
  {
    assert (tagged + [(r, e)])[..|tagged|] == tagged;
  }

  lemma TornStaysPresent<E(!new)>(h: Digest<E>, t: Trail<E>, es: seq<E>, k: nat, fragment: bool,
                                  run: RunId, events: seq<E>, before: seq<E>, after: seq<E>)
    returns (after': seq<E>)
    requires Present(t, run, events, before, after)
    ensures Present(Do(h, t, Torn(run, es, k, fragment)), run, events, before, after')
  {
    hide WriteAll, Project;
    var newEvents := NewEvents(t, run, es);
    after' := KillStaysPresent(h, t, es, k, run, events, before, after);
    if k < |newEvents| && !fragment {
      ProjectSnoc(WriteSome(h, t, run, es, k).tagged, run, newEvents[k], run);
      after' := after' + [newEvents[k]];
    }
  }

  lemma StaysPresent<E(!new)>(h: Digest<E>, t: Trail<E>, op: Op<E>, run: RunId, events: seq<E>, before: seq<E>,
      after: seq<E>)
    returns (before': seq<E>, after': seq<E>)
    requires Present(t, run, events, before, after)
    requires (op.FlushRun? || op.Killed? || op.Torn?) && op.run == run ==> events <= op.events
    ensures Present(Do(h, t, op), run, if op.FlushRun? && op.run == run then op.events else events, before', after')
  {
    before', after' := before, after;
    match op
    case FlushRun(r, es) =>
      if r == run {
        before', after' := FlushStaysPresent(h, t, es, run, events, before, after);
      } else {
        WriteAllTags(h, t, r, NewEvents(t, r, es));
      }
    case ForgetRun(_) =>
    case Restarted =>
    case Killed(r, es, k) =>
      if r == run {
        after' := KillStaysPresent(h, t, es, k, run, events, before, after);
      } else {
        WriteAllTags(h, t, r, NewEvents(t, r, es)[..Min(k, |NewEvents(t, r, es)|)]);
      }
    case Torn(r, es, k, fragment) =>
      if r == run {
        after' := TornStaysPresent(h, t, es, k, fragment, run, events, before, after);
      } else {
        WriteAllTags(h, t, r, NewEvents(t, r, es)[..Min(k, |NewEvents(t, r, es)|)]);
        if Tears(t, op) {
          ProjectSnoc(WriteSome(h, t, r, es, k).tagged, r, NewEvents(t, r, es)[k], run);
        }
      }
  }

  // ---- The object ----

  class TelemetrySink<E(!new)> {
    const h: Digest<E>
    var file: File<E>
    var seqNo: int
    var prevHash: Hash
    var emitted: map<RunId, nat>
    ghost var tagged: seq<(RunId, E)>

    ghost function State(): Trail<E>
      reads this
    {
      Trail(file, seqNo, prevHash, emitted, tagged)
    }

    constructor (h: Digest<E>, file: File<E>)
      ensures this.h == h && State() == Reopen(file, [])
    {
      this.h := h;
      this.file := file;
      var at, hash := ResumeChain(file.lines);
      this.seqNo, this.prevHash := at, hash;
      this.emitted, this.tagged := map[], [];
    }

    method Forget(run: RunId)
      modifies this
      ensures State() == Do(h, old(State()), ForgetRun(run))
    {
      emitted := emitted - {run};
    }

    method FlushNewEvents(run: RunId, events: seq<E>) returns (written: seq<E>)
      modifies this
      ensures State() == Flush(h, old(State()), run, events)
      ensures written == NewEvents(old(State()), run, events)
      ensures |events| <= old(Cursor(State(), run)) ==> written == [] && State() == old(State())
    {
      var cursor := if run in emitted then emitted[run] else 0;
      written := if cursor <= |events| then events[cursor..] else [];
      if written == [] {
        return;
      }
      var i := 0;
      assert written[..0] == [];
      while i < |written|
        invariant i <= |written| && emitted == old(emitted)
        invariant State() == WriteAll(h, old(State()), run, written[..i])
      {
        var digest := h(seqNo, prevHash, written[i]);
        assert written[..i + 1][..i] == written[..i];
        file := Append(file, Record(seqNo, prevHash, digest, written[i]));
        tagged := tagged + [(run, written[i])];
        seqNo, prevHash := seqNo + 1, digest;
        i := i + 1;
      }
      assert written[..i] == written;
      WriteAllTags(h, old(State()), run, written);
      emitted := emitted[run := |events|];
    }
  }

  // The last line that is not blank decides where the chain goes on.
  method ResumeChain<E>(lines: seq<Line<E>>) returns (at: int, hash: Hash)
    ensures (at, hash) == ResumePoint(lines)
  {
    var last: Option<Line<E>> := None;
    var i := 0;
    while i < |lines|
      invariant i <= |lines|
      invariant var rs := Records(lines[..i]); last == if rs == [] then None else Some(rs[|rs| - 1])
    {
      assert lines[..i + 1][..i] == lines[..i];
      if !lines[i].Blank? {
        last := Some(lines[i]);
      }
      i := i + 1;
    }
    assert lines[..i] == lines;
    if last.Some? && last.value.Object? && last.value.seqNo.Some? && last.value.hash.Some? {
      return last.value.seqNo.value + 1, last.value.hash.value;
    }
    return 0, GENESIS_HASH;
  }
}
