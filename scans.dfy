/** Fail-fast scans, independent of what a row is and what it commits: a
    row step maps a row and its commit position to what is committed or to
    the error that ends the scan. */
module Scans {
  import opened Outcomes

  /** The documents a scan commits, in order, and the error that stopped it. */
  datatype Outcome<D> = Outcome(docs: seq<D>, err: Option<Error>)

  function Prepend<D>(docs: seq<D>, o: Outcome<D>): Outcome<D> {
    Outcome(docs + o.docs, o.err)
  }

  /** A whole scan over `rows` with a row step, the first row being the
      `base`-th commit. */
  function Run<R, D>(step: (R, nat) -> Result<D>, rows: seq<R>, base: nat): (o: Outcome<D>)
    decreases |rows|
    ensures |o.docs| <= |rows|
    ensures o.err.None? <==> |o.docs| == |rows|
  {
    if rows == [] then Outcome([], None)
    else
      match step(rows[0], base)
      case Failure(e) => Outcome([], Some(e))
      case Success(d) => Prepend([d], Run(step, rows[1..], base + 1))
  }

  /** Fail-fast: the scan commits the documents of a prefix of the rows, one
      per row and in row order, and an error is the failure of the first row
      after that prefix. */
  lemma {:induction false} RunIsFailFast<R, D>(step: (R, nat) -> Result<D>, rows: seq<R>, base: nat)
    ensures forall i :: 0 <= i < |Run(step, rows, base).docs| ==>
      step(rows[i], base + i) == Success(Run(step, rows, base).docs[i])
    ensures Run(step, rows, base).err.Some? ==>
      var k := |Run(step, rows, base).docs|;
      step(rows[k], base + k) == Failure(Run(step, rows, base).err.value)
  {
    if rows != [] && step(rows[0], base).Success? {
      RunIsFailFast(step, rows[1..], base + 1);
      var o := Run(step, rows, base);
      var rest := Run(step, rows[1..], base + 1);
      forall i | 1 <= i < |o.docs|
        ensures step(rows[i], base + i) == Success(o.docs[i])
      {
        assert rows[1..][i - 1] == rows[i];
        assert o.docs[i] == rest.docs[i - 1];
      }
      if o.err.Some? {
        assert rows[1..][|rest.docs|] == rows[|o.docs|];
      }
    }
  }

  /** The converse of `RunIsFailFast`: a prefix of rows committed one by one
      in order, ended by the error of the next row or by the end of the rows,
      is exactly what the scan produces. */
  lemma {:induction false} RunOfPrefix<R, D>(step: (R, nat) -> Result<D>, rows: seq<R>, base: nat,
                                       done: seq<D>, err: Option<Error>)
    requires Scanned(step, rows, base, done, err)
    ensures Run(step, rows, base) == Outcome(done, err)
    decreases |done|
  {
    if done != [] {
      assert StepAt(step, rows, base, 0) == Success(done[0]);
      forall k | 0 <= k < |done[1..]|
        ensures StepAt(step, rows[1..], base + 1, k) == Success(done[1..][k])
      {
        assert StepAt(step, rows, base, k + 1) == Success(done[k + 1]);
      }
      if err.Some? {
        assert rows[1..][|done[1..]|] == rows[|done|];
      }
      RunOfPrefix(step, rows[1..], base + 1, done[1..], err);
      assert [done[0]] + done[1..] == done;
    }
  }

  /** Scanning two row sequences one after the other is scanning their
      concatenation. */
  lemma {:induction false} RunAppend<R, D>(step: (R, nat) -> Result<D>, xs: seq<R>, ys: seq<R>, base: nat)
    ensures Run(step, xs + ys, base) ==
      var o := Run(step, xs, base);
      if o.err.Some? then o else Prepend(o.docs, Run(step, ys, base + |o.docs|))
  {
    if xs == [] {
      assert xs + ys == ys;
    } else {
      assert (xs + ys)[0] == xs[0];
      assert (xs + ys)[1..] == xs[1..] + ys;
      if step(xs[0], base).Success? {
        RunAppend(step, xs[1..], ys, base + 1);
      }
    }
  }

  /** `docs` were committed one per row, in order, for the first rows: each
      is its row's step at its position. */
  ghost predicate Committed<R, D>(step: (R, nat) -> Result<D>, rows: seq<R>, base: nat, docs: seq<D>) {
    && |docs| <= |rows|
    && forall k {:trigger StepAt(step, rows, base, k)} :: 0 <= k < |docs| ==> StepAt(step, rows, base, k) == Success(docs[k])
  }

  /** The step of row `k` at its commit position. */
  ghost function StepAt<R, D>(step: (R, nat) -> Result<D>, rows: seq<R>, base: nat, k: nat): Result<D>
    requires k < |rows|
  {
    step(rows[k], base + k)
  }

  lemma CommittedSnoc<R, D>(step: (R, nat) -> Result<D>, rows: seq<R>, base: nat, docs: seq<D>, i: nat, d: D)
    requires Committed(step, rows, base, docs) && i == |docs| < |rows|
    requires step(rows[i], base + i) == Success(d)
    ensures Committed(step, rows, base, docs + [d])
  {
  }

  /** A scan that has committed the first `i` rows and fails on row `i`. */
  lemma ScannedStop<R, D>(step: (R, nat) -> Result<D>, rows: seq<R>, base: nat, docs: seq<D>, i: nat, e: Error)
    requires Committed(step, rows, base, docs) && i == |docs| < |rows|
    requires step(rows[i], base + i) == Failure(e)
    ensures Scanned(step, rows, base, docs, Some(e))
  {
  }

  /** `docs` and `err` are what a fail-fast scan of `rows` leaves behind:
      every committed document is its row's step at its position, a scan
      without error has done every row, and an error is the failure of the
      step on the first row not committed. */
  ghost predicate Scanned<R, D>(step: (R, nat) -> Result<D>, rows: seq<R>, base: nat, docs: seq<D>, err: Option<Error>) {
    && Committed(step, rows, base, docs)
    && (err.None? ==> |docs| == |rows|)
    && (err.Some? ==> |docs| < |rows| && step(rows[|docs|], base + |docs|) == Failure(err.value))
  }

  /** The scan is the only thing `Scanned` describes: one outcome satisfies
      it, and it is the outcome of `Run`. */
  lemma ScannedIsRun<R, D>(step: (R, nat) -> Result<D>, rows: seq<R>, base: nat, docs: seq<D>, err: Option<Error>)
    ensures Scanned(step, rows, base, docs, err) <==> Run(step, rows, base) == Outcome(docs, err)
  {
    RunIsFailFast(step, rows, base);
    if Scanned(step, rows, base, docs, err) {
      RunOfPrefix(step, rows, base, docs, err);
    }
  }

  /** What ingesting one table does, given the SELECT's rows or its error:
      a failing SELECT commits nothing. */
  function TableOutcome<R, D>(step: (R, nat) -> Result<D>, source: Result<seq<R>>, base: nat): Outcome<D> {
    match source
    case Failure(e) => Outcome([], Some(e))
    case Success(rows) => Run(step, rows, base)
  }

  /** `docs` and `err` are what ingesting one table leaves behind. */
  ghost predicate TableScanned<R, D>(step: (R, nat) -> Result<D>, source: Result<seq<R>>, base: nat, docs: seq<D>, err: Option<Error>) {
    match source
    case Failure(e) => docs == [] && err == Some(e)
    case Success(rows) => Scanned(step, rows, base, docs, err)
  }

  lemma TableScannedIsOutcome<R, D>(step: (R, nat) -> Result<D>, source: Result<seq<R>>, base: nat, docs: seq<D>, err: Option<Error>)
    ensures TableScanned(step, source, base, docs, err) <==> TableOutcome(step, source, base) == Outcome(docs, err)
  {
    if source.Success? {
      ScannedIsRun(step, source.value, base, docs, err);
    }
  }

  /** The documents a run over several tables commits, how many tables it
      finished, and the error that stopped it. */
  datatype Progress<D> = Progress(docs: seq<D>, finished: nat, err: Option<Error>)

  /** Ingests `tables` in order, `source(t)` being the SELECT on table `t`;
      the first failing table stops the run, so the run finishes every table
      exactly when it ends without error. */
  function Tables<R, D>(step: (R, nat) -> Result<D>, source: string -> Result<seq<R>>, tables: seq<string>, base: nat): (p: Progress<D>)
    decreases |tables|
    ensures p.finished <= |tables|
    ensures p.err.None? <==> p.finished == |tables|
  {
    if tables == [] then Progress([], 0, None)
    else
      var first := TableOutcome(step, source(tables[0]), base);
      if first.err.Some? then Progress(first.docs, 0, first.err)
      else
        var rest := Tables(step, source, tables[1..], base + |first.docs|);
        Progress(first.docs + rest.docs, rest.finished + 1, rest.err)
  }

  /** Every row of the given tables, table after table. */
  function AllRows<R>(source: string -> Result<seq<R>>, tables: seq<string>): seq<R>
    requires forall t :: t in tables ==> source(t).Success?
    decreases |tables|
  {
    if tables == [] then [] else source(tables[0]).value + AllRows(source, tables[1..])
  }

  /** When every SELECT succeeds, ingesting the tables one after the other is
      a single fail-fast scan over all their rows: the same documents and
      the same error. */
  lemma {:induction false} TablesAreOneScan<R, D>(step: (R, nat) -> Result<D>, source: string -> Result<seq<R>>, tables: seq<string>, base: nat)
    requires forall t :: t in tables ==> source(t).Success?
    ensures Tables(step, source, tables, base).docs == Run(step, AllRows(source, tables), base).docs
    ensures Tables(step, source, tables, base).err == Run(step, AllRows(source, tables), base).err
    decreases |tables|
  {
    if tables != [] {
      var rows := source(tables[0]).value;
      var first := Run(step, rows, base);
      RunAppend(step, rows, AllRows(source, tables[1..]), base);
      if first.err.None? {
        TablesAreOneScan(step, source, tables[1..], base + |first.docs|);
      }
    }
  }

  /** One table's share of a run over several tables: the position of its
      first commit, what it committed and how it ended. */
  datatype Share<D> = Share(start: nat, docs: seq<D>, err: Option<Error>)

  /** The documents of the shares, one share after the other. */
  function Flatten<D>(shares: seq<Share<D>>): seq<D> {
    if shares == [] then [] else shares[0].docs + Flatten(shares[1..])
  }

  /** One more share adds its documents at the end, after whatever came
      before the shares. */
  lemma {:induction false} FlattenSnoc<D>(prior: seq<D>, shares: seq<Share<D>>, s: Share<D>)
    ensures prior + Flatten(shares + [s]) == prior + Flatten(shares) + s.docs
    decreases |shares|
  {
    if shares == [] {
      assert shares + [s] == [s];
    } else {
      var p := prior + shares[0].docs;
      assert (shares + [s])[1..] == shares[1..] + [s];
      FlattenSnoc(p, shares[1..], s);
      calc {
        prior + Flatten(shares + [s]);
        prior + (shares[0].docs + Flatten(shares[1..] + [s]));
        p + Flatten(shares[1..] + [s]);
        p + Flatten(shares[1..]) + s.docs;
        prior + Flatten(shares) + s.docs;
      }
    }
  }

  /** The shares of the first tables of a run, all ended without error, each
      starting where the one before stopped. */
  ghost predicate SharesClean<R, D>(step: (R, nat) -> Result<D>, source: string -> Result<seq<R>>, tables: seq<string>, base: nat, shares: seq<Share<D>>) {
    && |shares| <= |tables|
    && (forall j :: 0 <= j < |shares| ==>
          && shares[j].err.None?
          && TableScanned(step, source(tables[j]), shares[j].start, shares[j].docs, None))
    && (0 < |shares| ==> shares[0].start == base)
    && (forall j :: 0 <= j < |shares| - 1 ==> shares[j + 1].start == shares[j].start + |shares[j].docs|)
  }

  /** `shares` is what ingesting `tables` in order leaves behind: the tables
      before the last share ended cleanly, and a run that did not reach every
      table stopped on its last share's error. */
  ghost predicate TablesScanned<R, D>(step: (R, nat) -> Result<D>, source: string -> Result<seq<R>>, tables: seq<string>, base: nat, shares: seq<Share<D>>) {
    || (|shares| == |tables| && SharesClean(step, source, tables, base, shares))
    || (&& 0 < |shares| <= |tables|
        && SharesClean(step, source, tables, base, shares[..|shares| - 1])
        && var last := shares[|shares| - 1];
           && last.err.Some?
           && last.start == (if |shares| == 1 then base else shares[|shares| - 2].start + |shares[|shares| - 2].docs|)
           && TableScanned(step, source(tables[|shares| - 1]), last.start, last.docs, last.err))
  }

  /** The error a run over tables ends with: its last share's. */
  function LastError<D>(shares: seq<Share<D>>): Option<Error> {
    if shares == [] then None else shares[|shares| - 1].err
  }

  /** How many tables a run finished. */
  function Finished<D>(shares: seq<Share<D>>): nat {
    if LastError(shares).Some? then |shares| - 1 else |shares|
  }

  /** Dropping the first table's share leaves the clean shares of the
      remaining tables, starting where the first share stopped. */
  lemma SharesCleanTail<R, D>(step: (R, nat) -> Result<D>, source: string -> Result<seq<R>>, tables: seq<string>, base: nat, shares: seq<Share<D>>)
    requires 0 < |shares| && SharesClean(step, source, tables, base, shares)
    ensures SharesClean(step, source, tables[1..], shares[0].start + |shares[0].docs|, shares[1..])
  {
    forall j | 0 <= j < |shares| - 1
      ensures && shares[1..][j].err.None?
              && TableScanned(step, source(tables[1..][j]), shares[1..][j].start, shares[1..][j].docs, None)
    {
      assert shares[1..][j] == shares[j + 1] && tables[1..][j] == tables[j + 1];
    }
    forall j | 0 <= j < |shares| - 2
      ensures shares[1..][j + 1].start == shares[1..][j].start + |shares[1..][j].docs|
    {
      assert shares[1..][j] == shares[j + 1] && shares[1..][j + 1] == shares[j + 2];
    }
  }

  /** The same for a run that stopped on its last share. */
  lemma StoppedTail<R, D>(step: (R, nat) -> Result<D>, source: string -> Result<seq<R>>, tables: seq<string>, base: nat, shares: seq<Share<D>>)
    requires 1 < |shares| <= |tables|
    requires SharesClean(step, source, tables, base, shares[..|shares| - 1])
    requires var last := shares[|shares| - 1];
      && last.err.Some?
      && last.start == shares[|shares| - 2].start + |shares[|shares| - 2].docs|
      && TableScanned(step, source(tables[|shares| - 1]), last.start, last.docs, last.err)
    ensures TablesScanned(step, source, tables[1..], shares[0].start + |shares[0].docs|, shares[1..])
  {
    var init := shares[..|shares| - 1];
    SharesCleanTail(step, source, tables, base, init);
    assert init[1..] == shares[1..][..|shares[1..]| - 1];
    assert tables[1..][|shares[1..]| - 1] == tables[|shares| - 1];
    if |shares| == 2 {
      assert shares[1].start == init[0].start + |init[0].docs|;
    }
  }

  /** Where the next table's commits start: after the last share's. */
  function NextStart<D>(base: nat, shares: seq<Share<D>>): nat {
    if shares == [] then base else shares[|shares| - 1].start + |shares[|shares| - 1].docs|
  }

  /** Appending the share of table `i`, ended cleanly where the run stood. */
  lemma SharesCleanSnoc<R, D>(step: (R, nat) -> Result<D>, source: string -> Result<seq<R>>, tables: seq<string>, base: nat,
                              shares: seq<Share<D>>, i: nat, s: Share<D>)
    requires SharesClean(step, source, tables, base, shares) && i == |shares| < |tables|
    requires s.start == NextStart(base, shares) && s.err.None?
    requires TableScanned(step, source(tables[i]), s.start, s.docs, s.err)
    ensures SharesClean(step, source, tables, base, shares + [s])
    ensures NextStart(base, shares + [s]) == s.start + |s.docs|
  {
    var shares' := shares + [s];
    assert forall j :: 0 <= j < i ==> shares'[j] == shares[j];
  }

  /** Appending the share of table `i`, ended by an error: the run stops. */
  lemma SharesStop<R, D>(step: (R, nat) -> Result<D>, source: string -> Result<seq<R>>, tables: seq<string>, base: nat,
                         shares: seq<Share<D>>, i: nat, s: Share<D>)
    requires SharesClean(step, source, tables, base, shares) && i == |shares| < |tables|
    requires s.start == NextStart(base, shares) && s.err.Some?
    requires TableScanned(step, source(tables[i]), s.start, s.docs, s.err)
    ensures TablesScanned(step, source, tables, base, shares + [s])
  {
    assert (shares + [s])[..i] == shares;
  }

  /** A run over tables seen from its first table: either the first table
      stopped the run, or it ended cleanly and the remaining shares are a run
      over the remaining tables, starting where it stopped. */
  lemma TablesScannedHead<R, D>(step: (R, nat) -> Result<D>, source: string -> Result<seq<R>>, tables: seq<string>, base: nat, shares: seq<Share<D>>)
    requires TablesScanned(step, source, tables, base, shares) && tables != []
    ensures 0 < |shares| && TableScanned(step, source(tables[0]), base, shares[0].docs, shares[0].err)
    ensures shares[0].err.Some? ==> |shares| == 1
    ensures shares[0].err.None? ==> TablesScanned(step, source, tables[1..], base + |shares[0].docs|, shares[1..])
  {
    var first := shares[0];
    if |shares| == |tables| && SharesClean(step, source, tables, base, shares) {
      SharesCleanTail(step, source, tables, base, shares);
    } else if 1 < |shares| {
      var init := shares[..|shares| - 1];
      assert init[0] == first;
      StoppedTail(step, source, tables, base, shares);
    }
  }

  /** How the documents, the finished count and the error of shares follow
      from the first share's and the rest's. */
  lemma ShareHead<D>(shares: seq<Share<D>>)
    requires 0 < |shares| && (shares[0].err.Some? ==> |shares| == 1)
    ensures Flatten(shares) == shares[0].docs + Flatten(shares[1..])
    ensures shares[0].err.None? ==> LastError(shares) == LastError(shares[1..])
    ensures shares[0].err.None? ==> Finished(shares) == Finished(shares[1..]) + 1
  {
    assert shares[1..] == [] || shares[1..][|shares[1..]| - 1] == shares[|shares| - 1];
  }

  /** The same relation, table by table: the first table's share, then,
      when it ended cleanly, the rest of the run. */
  ghost predicate SharesOf<R, D>(step: (R, nat) -> Result<D>, source: string -> Result<seq<R>>, tables: seq<string>, base: nat, shares: seq<Share<D>>)
    decreases |tables|
  {
    if tables == [] then shares == []
    else
      && 0 < |shares|
      && TableScanned(step, source(tables[0]), base, shares[0].docs, shares[0].err)
      && if shares[0].err.Some? then |shares| == 1
         else SharesOf(step, source, tables[1..], base + |shares[0].docs|, shares[1..])
  }

  lemma {:induction false} TablesScannedIsSharesOf<R, D>(step: (R, nat) -> Result<D>, source: string -> Result<seq<R>>, tables: seq<string>, base: nat, shares: seq<Share<D>>)
    requires TablesScanned(step, source, tables, base, shares)
    ensures SharesOf(step, source, tables, base, shares)
    decreases |tables|
  {
    if tables == [] {
      assert shares == [];
    } else {
      TablesScannedHead(step, source, tables, base, shares);
      if shares[0].err.None? {
        TablesScannedIsSharesOf(step, source, tables[1..], base + |shares[0].docs|, shares[1..]);
      }
    }
  }

  lemma {:induction false} SharesOfIsTables<R, D>(step: (R, nat) -> Result<D>, source: string -> Result<seq<R>>, tables: seq<string>, base: nat, shares: seq<Share<D>>)
    requires SharesOf(step, source, tables, base, shares)
    ensures Tables(step, source, tables, base) == Progress(Flatten(shares), Finished(shares), LastError(shares))
    decreases |tables|
  {
    if tables != [] {
      var first := shares[0];
      TableScannedIsOutcome(step, source(tables[0]), base, first.docs, first.err);
      ShareHead(shares);
      if first.err.None? {
        SharesOfIsTables(step, source, tables[1..], base + |first.docs|, shares[1..]);
      } else {
        assert shares[1..] == [];
      }
    }
  }

  /** The shares a run over tables leaves behind are those of `Tables`: the
      same documents, the same number of finished tables, the same error. */
  lemma TablesScannedIsTables<R, D>(step: (R, nat) -> Result<D>, source: string -> Result<seq<R>>, tables: seq<string>, base: nat, shares: seq<Share<D>>)
    requires TablesScanned(step, source, tables, base, shares)
    ensures Tables(step, source, tables, base) == Progress(Flatten(shares), Finished(shares), LastError(shares))
  {
    TablesScannedIsSharesOf(step, source, tables, base, shares);
    SharesOfIsTables(step, source, tables, base, shares);
  }
}
