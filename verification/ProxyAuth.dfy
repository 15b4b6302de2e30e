/**
Answering proxy challenges: one attempt per request, counted in a table that is
thrown away once it holds more than 4096 requests.  Handlers run concurrently,
but the counting happens under one lock, so a run is a sequence of challenges in
the order of that lock.
*/
module ProxyAuth {

  const MAX_ATTEMPTS: nat := 1
  const MAX_TRACKED: nat := 4096

  // The challenges between two resets: the table is dropped by the first
  // challenge that finds it holding 4097 requests.
  const PERIOD: nat := 4097

  type Table = map<string, nat>

  // A challenge without a request id is ignored.
  datatype Answer = Ignored | Cancel(request: string) | Provide(request: string)

  class Authenticator {
    var attempts: Table

    constructor ()
      ensures attempts == Counted([])
    {
      attempts := map[];
    }

    method OnAuthRequired(ghost history: seq<string>, request: string) returns (answer: Answer)
      requires attempts == Counted(history)
      modifies this
      ensures attempts == Counted(history + [request])
      ensures answer.Ignored? <==> request == ""
      ensures answer == Provide(request) <==> Granted(history, request)
      ensures answer.Cancel? ==> answer.request == request
    {
      assert (history + [request])[..|history|] == history;
      TableCounts(history);
      if request == "" { return Ignored; }
      if |attempts| > MAX_TRACKED { attempts := map[]; }
      attempts := attempts[request := if request in attempts then attempts[request] + 1 else 1];
      var tries := attempts[request];
      answer := if tries > MAX_ATTEMPTS then Cancel(request) else Provide(request);
    }
  }

  // Does this challenge throw the table away?
  predicate Resets(table: Table, request: string) { request != "" && |table| > MAX_TRACKED }

  function Kept(table: Table, request: string): Table {
    if Resets(table, request) then map[] else table
  }

  // The table after a run of challenges: how often each request was challenged
  // since the last reset.
  function Counted(run: seq<string>): Table {
    if run == [] then map[]
    else
      var before, request := Counted(run[..|run| - 1]), run[|run| - 1];
      if request == "" then before
      else var table := Kept(before, request); table[request := if request in table then table[request] + 1 else 1]
  }

  // Credentials go out when the request was not challenged since the last reset.
  predicate Granted(history: seq<string>, request: string) {
    request != "" && request !in Kept(Counted(history), request)
  }

  function Grants(run: seq<string>, request: string): nat {
    if run == [] then 0
    else
      var before, last := run[..|run| - 1], run[|run| - 1];
      Grants(before, request) + if last == request && Granted(before, request) then 1 else 0
  }

  function ResetCount(run: seq<string>): nat {
    if run == [] then 0
    else
      var before, last := run[..|run| - 1], run[|run| - 1];
      ResetCount(before) + if Resets(Counted(before), last) then 1 else 0
  }

  // The challenges that carry a request id.
  function Named(run: seq<string>): nat {
    if run == [] then 0 else Named(run[..|run| - 1]) + if run[|run| - 1] != "" then 1 else 0
  }

  lemma {:induction false} TableCounts(run: seq<string>)
    ensures forall r :: r in Counted(run) ==> Counted(run)[r] >= 1
  {
    if run != [] { TableCounts(run[..|run| - 1]); }
  }

  // What every run keeps: each reset has used up a full table of challenges, and
  // each grant to a request is paid for by a reset or by its entry in the table.
  lemma {:induction false} Budget(run: seq<string>, request: string)
    ensures |Counted(run)| <= PERIOD
    ensures PERIOD * ResetCount(run) + |Counted(run)| <= Named(run)
    ensures Grants(run, request) <= ResetCount(run) + if request in Counted(run) then 1 else 0
  {
    if run != [] {
      var before, last := run[..|run| - 1], run[|run| - 1];
      Budget(before, request);
      if last != "" {
        var table := Kept(Counted(before), last);
        assert Counted(run).Keys == table.Keys + {last};
        assert |table.Keys + {last}| <= |table.Keys| + 1;
        assert |Counted(run).Keys| == |Counted(run)| && |table.Keys| == |table|;
      }
    }
  }

  // The table never holds more than 4097 requests.
  lemma TableIsBounded(run: seq<string>)
    ensures |Counted(run)| <= PERIOD
  {
    Budget(run, "");
  }

  // In any run of N challenges no request is given credentials more than
  // 1 + (N - 1) / 4097 times.
  lemma CredentialBound(run: seq<string>, request: string)
    requires Named(run) >= 1
    ensures Grants(run, request) <= 1 + (Named(run) - 1) / PERIOD
  {
    Budget(run, request);
    var resets, n := ResetCount(run), Named(run);
    if request in Counted(run) {
      assert |Counted(run)| >= 1 by { assert request in Counted(run).Keys; }
      Quotient(n - 1, resets);
    } else if resets > 0 {
      assert n - 1 >= PERIOD * (resets - 1);
      Quotient(n - 1, resets - 1);
    }
  }

  lemma Quotient(n: nat, k: nat)
    requires PERIOD * k <= n
    ensures k <= n / PERIOD
  {
  }

  // Challenge k throws the table away; it grants credentials to its request.
  predicate ResetAt(run: seq<string>, k: nat) { k < |run| && Resets(Counted(run[..k]), run[k]) }

  predicate GrantAt(run: seq<string>, k: nat) { k < |run| && Granted(run[..k], run[k]) }

  function TableAt(run: seq<string>, k: nat): Table
    requires k <= |run|
  {
    Counted(run[..k])
  }

  lemma TableAtNext(run: seq<string>, k: nat)
    requires k < |run|
    ensures var request := run[k]; var table := Kept(TableAt(run, k), request);
      TableAt(run, k + 1) ==
      if request == "" then TableAt(run, k)
      else table[request := if request in table then table[request] + 1 else 1]
  {
    assert run[..k + 1][..k] == run[..k];
  }

  // Once a request is in the table, it stays until a reset.
  lemma {:induction false} StaysCounted(run: seq<string>, m: nat, n: nat, request: string)
    requires m <= n <= |run| && request in TableAt(run, m)
    requires forall k :: m <= k < n ==> !ResetAt(run, k)
    ensures request in TableAt(run, n)
  {
    if m < n {
      StaysCounted(run, m, n - 1, request);
      TableAtNext(run, n - 1);
      assert !ResetAt(run, n - 1);
      hide Counted;
    }
  }

  // Between two grants to one request lies a reset.
  lemma GrantedOncePerTable(run: seq<string>, m: nat, n: nat)
    requires m < n < |run| && run[m] == run[n] && GrantAt(run, m) && GrantAt(run, n)
    ensures exists k :: m < k <= n && ResetAt(run, k)
  {
    if !ResetAt(run, n) && forall k :: m < k < n ==> !ResetAt(run, k) {
      TableAtNext(run, m);
      StaysCounted(run, m + 1, n, run[m]);
      assert false;
    }
  }

  // The bound is reached: a run that challenges the request, then 4096 others,
  // and starts over.
  function Other(request: string, k: nat): string { request + seq(k, _ => 'x') }

  function Worst(request: string, n: nat): seq<string> {
    seq(n, i requires 0 <= i < n => Other(request, i % PERIOD))
  }

  lemma OthersDiffer(request: string, j: nat, k: nat)
    ensures Other(request, j) == Other(request, k) <==> j == k
  {
    assert |Other(request, j)| == |request| + j && |Other(request, k)| == |request| + k;
  }

  // The first k requests of that run.
  function Firsts(request: string, k: nat): set<string> {
    if k == 0 then {} else Firsts(request, k - 1) + {Other(request, k - 1)}
  }

  lemma {:induction false} FirstsHold(request: string, k: nat)
    ensures |Firsts(request, k)| == k
    ensures forall j: nat :: Other(request, j) in Firsts(request, k) <==> j < k
  {
    if k > 0 {
      FirstsHold(request, k - 1);
      forall j: nat { OthersDiffer(request, j, k - 1); }
    }
  }

  ghost predicate HoldsFirst(table: Table, request: string, k: nat) {
    table.Keys == Firsts(request, k)
  }

  lemma Extend(table: Table, request: string, k: nat, v: nat)
    requires HoldsFirst(table, request, k)
    ensures Other(request, k) !in table && |table| == k
    ensures HoldsFirst(table[Other(request, k) := v], request, k + 1)
  {
    FirstsHold(request, k);
    assert Other(request, k) !in table.Keys && |table.Keys| == |table|;
    assert table[Other(request, k) := v].Keys == table.Keys + {Other(request, k)};
  }

  // The places of consecutive challenges in the period.
  lemma NextPlace(n: nat)
    requires n > 1
    ensures if (n - 1) % PERIOD == 0 then (n - 2) % PERIOD + 1 == PERIOD && (n - 1) / PERIOD == (n - 2) / PERIOD + 1
            else (n - 2) % PERIOD + 1 == (n - 1) % PERIOD && (n - 1) / PERIOD == (n - 2) / PERIOD
  {
  }

  lemma {:induction false} WorstRun(request: string, n: nat)
    requires request != "" && n > 0
    decreases n, 1
    ensures HoldsFirst(Counted(Worst(request, n)), request, (n - 1) % PERIOD + 1)
    ensures Grants(Worst(request, n), request) == 1 + (n - 1) / PERIOD
    ensures Named(Worst(request, n)) == n
  {
    hide HoldsFirst, Other;
    var run := Worst(request, n);
    var before, last := run[..n - 1], run[n - 1];
    assert before == Worst(request, n - 1);
    var k := (n - 1) % PERIOD;
    OthersDiffer(request, 0, k);
    assert Other(request, 0) == request && Other(request, k) != "" by { NotEmpty(request, k); }
    var table := Kept(Counted(before), last);
    assert HoldsFirst(table, request, k) by {
      WorstBefore(request, n);
    }
    Extend(table, request, k, 1);
    if n > 1 {
      WorstRun(request, n - 1);
      NextPlace(n);
    }
  }

  lemma NotEmpty(request: string, k: nat)
    requires request != ""
    ensures Other(request, 0) == request && Other(request, k) != ""
  {
    assert |Other(request, k)| > 0;
  }

  // What the n-th challenge of the worst run finds: nothing at the start of a
  // period, and the requests before it otherwise.
  lemma WorstBefore(request: string, n: nat)
    requires request != "" && n > 0
    ensures var k := (n - 1) % PERIOD;
      HoldsFirst(Kept(Counted(Worst(request, n - 1)), Other(request, k)), request, k)
    decreases n, 0
  {
    hide Counted, Worst, Other, Firsts, Kept, HoldsFirst;
    var k := (n - 1) % PERIOD;
    NotEmpty(request, k);
    if n == 1 {
      FirstOfAll(request);
    } else {
      WorstRun(request, n - 1);
      NextPlace(n);
      if k == 0 {
        FullTableGoes(Counted(Worst(request, n - 1)), request);
      } else {
        OtherTableStays(Counted(Worst(request, n - 1)), request, k);
      }
    }
  }

  lemma FirstOfAll(request: string)
    ensures HoldsFirst(Kept(Counted(Worst(request, 0)), Other(request, 0)), request, 0)
  {
  }

  lemma FullTableGoes(table: Table, request: string)
    requires HoldsFirst(table, request, PERIOD) && Other(request, 0) != ""
    ensures HoldsFirst(Kept(table, Other(request, 0)), request, 0)
  {
    hide Firsts, Other;
    FirstsHold(request, PERIOD);
    assert |table| == |table.Keys|;
    assert HoldsFirst(map[], request, 0) by { NoneFirst(request); }
  }

  lemma NoneFirst(request: string)
    ensures Firsts(request, 0) == {}
  {
  }

  lemma OtherTableStays(table: Table, request: string, k: nat)
    requires HoldsFirst(table, request, k) && k < PERIOD
    ensures HoldsFirst(Kept(table, Other(request, k)), request, k)
  {
    hide Firsts, Other;
    FirstsHold(request, k);
    assert |table| == |table.Keys|;
  }
}
