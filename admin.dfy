/** The admin controller: the date-range validator shared by both reports,
    the best-profession report, the best-clients report and its limit. */
module Admin {
  import opened Wrappers
  import opened Keys
  import opened Models
  import opened Parsing

  /** A `start` or `end` query parameter: missing, or present with the
      timestamp `Date.parse` gives for it (`None` for an invalid date). */
  datatype DateParam = Absent | Given(parsed: Option<int>)

  /** Validated bounds; `None` means no bound on that side. */
  datatype Range = Range(start: Option<int>, end: Option<int>)

  /** A payment date lies in the range: both bounds are inclusive, and a
      missing payment date fails every bound (an SQL comparison with null). */
  predicate InRange(range: Range, date: Option<int>)
  {
    && (range.start.Some? ==> date.Some? && date.value >= range.start.value)
    && (range.end.Some? ==> date.Some? && date.value <= range.end.value)
  }

  /** The validator: `start` is checked before `end`, a missing parameter
      leaves that side unbounded, and an end not after the start is refused. */
  function DateRange(start: DateParam, end: DateParam): (r: Result<Range, ApiError>)
    ensures start == Given(None) ==> r == Err(InvalidStartTime)
    ensures start != Given(None) && end == Given(None) ==> r == Err(InvalidEndTime)
    ensures r.Ok? <==> start != Given(None) && end != Given(None)
                       && !(start.Given? && end.Given? && end.parsed.value <= start.parsed.value)
    ensures r.Ok? ==> (r.value.start == (if start.Given? then start.parsed else None)
                       && r.value.end == (if end.Given? then end.parsed else None))
    ensures r.Err? && r.error == InvalidRange ==> start.Given? && end.Given? && end.parsed.value <= start.parsed.value
    ensures (start.Given? && start.parsed.Some? && end.Given? && end.parsed.Some?
             && end.parsed.value <= start.parsed.value) ==> r == Err(InvalidRange)
  {
    if start == Given(None) then Err(InvalidStartTime)
    else if end == Given(None) then Err(InvalidEndTime)
    else if start.Given? && end.Given? && end.parsed.value <= start.parsed.value then Err(InvalidRange)
    else Ok(Range(if start.Given? then start.parsed else None, if end.Given? then end.parsed else None))
  }

  /** Every range the validator lets through contains some payment date. */
  lemma DateRangeNotEmpty(start: DateParam, end: DateParam)
    requires DateRange(start, end).Ok?
    ensures exists t: int :: InRange(DateRange(start, end).value, Some(t))
  {
    var range := DateRange(start, end).value;
    var t: int := if range.start.Some? then range.start.value else if range.end.Some? then range.end.value else 0;
    assert InRange(range, Some(t));
  }

  /** The middleware: the bounds start out null, each present parameter is
      parsed and kept, and the normalised bounds are handed on to the report. */
  method GetDatesFromQuery(startParam: DateParam, endParam: DateParam) returns (r: Result<Range, ApiError>)
    ensures r == DateRange(startParam, endParam)
  {
    var start: Option<int> := None;
    var end: Option<int> := None;
    if startParam.Given? {
      if startParam.parsed.None? {
        return Err(InvalidStartTime);
      }
      start := startParam.parsed;
    }
    if endParam.Given? {
      if endParam.parsed.None? {
        return Err(InvalidEndTime);
      }
      end := endParam.parsed;
    }
    if start.Some? && end.Some? && end.value <= start.value {
      return Err(InvalidRange);
    }
    return Ok(Range(start, end));
  }

  // ---------------------------------------------------------------- best profession

  /** A row of the best-profession join: a paid job in range whose contract's
      contractor is a profile of type contractor. */
  predicate Earned(s: Store, range: Range, id: nat)
  {
    && id in s.jobs && s.jobs[id].paid && InRange(range, s.jobs[id].paymentDate)
    && s.jobs[id].contractId in s.contracts
    && s.contracts[s.jobs[id].contractId].contractorId in s.profiles
    && s.profiles[s.contracts[s.jobs[id].contractId].contractorId].kind == Contractor
  }

  function ProfessionOf(s: Store, range: Range, id: nat): string
    requires Earned(s, range, id)
  {
    s.profiles[s.contracts[s.jobs[id].contractId].contractorId].profession
  }

  function EarnedAs(s: Store, range: Range, profession: string): nat -> real
  {
    (id: nat) => if Earned(s, range, id) && ProfessionOf(s, range, id) == profession then s.jobs[id].price else 0.0
  }

  /** `sum(j.price)` of one `group by p.profession` group. */
  function ProfessionTotal(s: Store, range: Range, profession: string): real
  {
    Sum(SortedKeys(s.jobs.Keys), EarnedAs(s, range, profession))
  }

  datatype ProfessionEarnings = ProfessionEarnings(profession: string, totalEarned: real)

  /** An index of a greatest element (the first, on ties). */
  function ArgMax(xs: seq<string>, f: string -> real): (i: nat)
    requires xs != []
    ensures i < |xs| && forall j :: 0 <= j < |xs| ==> f(xs[j]) <= f(xs[i])
  {
    if |xs| == 1 then 0
    else
      var k := ArgMax(xs[1..], f);
      if f(xs[0]) >= f(xs[1..][k]) then 0 else k + 1
  }

  /** The jobs of the join, in ascending id order. */
  function EarningJobs(s: Store, range: Range): (ids: seq<nat>)
    ensures forall id :: id in ids <==> id in s.jobs && Earned(s, range, id)
  {
    Filter(SortedKeys(s.jobs.Keys), (id: nat) => Earned(s, range, id))
  }

  /** The profession of each job of the join. */
  function Professions(s: Store, range: Range): (ps: seq<string>)
    ensures |ps| == |EarningJobs(s, range)|
  {
    var ids := EarningJobs(s, range);
    seq(|ids|, i requires 0 <= i < |ids| => ProfessionOf(s, range, ids[i]))
  }

  function TotalOf(s: Store, range: Range): string -> real
  {
    p => ProfessionTotal(s, range, p)
  }

  /** `order by totalEarned desc limit 1`: the profession with the greatest
      total, or `no_paid_jobs` when the join is empty. */
  function BestProfession(s: Store, range: Range): (r: Result<ProfessionEarnings, ApiError>)
    ensures r.Err? <==> forall id :: id in s.jobs ==> !Earned(s, range, id)
    ensures r.Err? ==> r.error == NoPaidJobs
    ensures r.Ok? ==> r.value.totalEarned == ProfessionTotal(s, range, r.value.profession)
  {
    var ps := Professions(s, range);
    if EarningJobs(s, range) == [] then
      Err(NoPaidJobs)
    else
      assert EarningJobs(s, range)[0] in EarningJobs(s, range);
      var best := ArgMax(ps, TotalOf(s, range));
      Ok(ProfessionEarnings(ps[best], ProfessionTotal(s, range, ps[best])))
  }

  /** Where the profession of a job of the join appears in the list. */
  lemma ProfessionIndex(s: Store, range: Range, id: nat) returns (i: nat)
    requires Earned(s, range, id)
    ensures i < |Professions(s, range)| && Professions(s, range)[i] == ProfessionOf(s, range, id)
  {
    var ids := EarningJobs(s, range);
    assert id in ids;
    i :| 0 <= i < |ids| && ids[i] == id;
  }

  /** The job of the join a listed profession comes from. */
  lemma ProfessionJob(s: Store, range: Range, i: nat) returns (id: nat)
    requires i < |Professions(s, range)|
    ensures Earned(s, range, id) && ProfessionOf(s, range, id) == Professions(s, range)[i]
  {
    var ids := EarningJobs(s, range);
    id := ids[i];
    assert id in ids;
  }

  /** Every profession of a contractor of the join is listed. */
  lemma ProfessionsListed(s: Store, range: Range)
    ensures forall id :: Earned(s, range, id) ==> ProfessionOf(s, range, id) in Professions(s, range)
  {
    forall id | Earned(s, range, id) ensures ProfessionOf(s, range, id) in Professions(s, range) {
      var i := ProfessionIndex(s, range, id);
    }
  }

  /** Every listed profession is that of a contractor of the join. */
  lemma ProfessionsFromJoin(s: Store, range: Range)
    ensures forall p :: p in Professions(s, range) ==> exists id :: Earned(s, range, id) && ProfessionOf(s, range, id) == p
  {
    var ps := Professions(s, range);
    forall p | p in ps ensures exists id :: Earned(s, range, id) && ProfessionOf(s, range, id) == p {
      var i :| 0 <= i < |ps| && ps[i] == p;
      var id := ProfessionJob(s, range, i);
    }
  }

  /** The reported profession is one some contractor of the join has, and no
      profession of the join earned more. */
  lemma BestProfessionIsBest(s: Store, range: Range)
    requires BestProfession(s, range).Ok?
    ensures exists id :: Earned(s, range, id) && ProfessionOf(s, range, id) == BestProfession(s, range).value.profession
    ensures forall id :: Earned(s, range, id) ==>
              ProfessionTotal(s, range, ProfessionOf(s, range, id)) <= BestProfession(s, range).value.totalEarned
  {
    var ps := Professions(s, range);
    var best := ArgMax(ps, TotalOf(s, range));
    assert BestProfession(s, range).value.profession == ps[best];
    var bestId := ProfessionJob(s, range, best);
    forall id | Earned(s, range, id)
      ensures ProfessionTotal(s, range, ProfessionOf(s, range, id)) <= BestProfession(s, range).value.totalEarned
    {
      var i := ProfessionIndex(s, range, id);
      assert TotalOf(s, range)(ps[i]) <= TotalOf(s, range)(ps[best]);
    }
  }

  // ---------------------------------------------------------------- best clients

  /** A row of the best-clients join: a paid job in range whose contract's
      client is a profile of type client. */
  predicate Spent(s: Store, range: Range, id: nat)
  {
    && id in s.jobs && s.jobs[id].paid && InRange(range, s.jobs[id].paymentDate)
    && s.jobs[id].contractId in s.contracts
    && s.contracts[s.jobs[id].contractId].clientId in s.profiles
    && s.profiles[s.contracts[s.jobs[id].contractId].clientId].kind == Client
  }

  function SpenderOf(s: Store, range: Range, id: nat): nat
    requires Spent(s, range, id)
  {
    s.contracts[s.jobs[id].contractId].clientId
  }

  function SpentBy(s: Store, range: Range, client: nat): nat -> real
  {
    (id: nat) => if Spent(s, range, id) && SpenderOf(s, range, id) == client then s.jobs[id].price else 0.0
  }

  /** `sum(j.price)` of one `group by p.id` group. */
  function ClientPaid(s: Store, range: Range, client: nat): real
  {
    Sum(SortedKeys(s.jobs.Keys), SpentBy(s, range, client))
  }

  /** The groups: every client with at least one row. */
  function SpendingClients(s: Store, range: Range): set<nat>
  {
    set id | id in s.jobs.Keys && Spent(s, range, id) :: SpenderOf(s, range, id)
  }

  lemma SpendersAreProfiles(s: Store, range: Range)
    ensures forall c :: c in SpendingClients(s, range) ==> c in s.profiles
  {
  }

  /** One result row: `id`, `firstName || ' ' || lastName`, and the total. */
  datatype ClientRow = ClientRow(id: nat, fullName: string, paid: real)

  function RowOf(s: Store, range: Range, client: nat): ClientRow
    requires client in s.profiles
  {
    ClientRow(client, s.profiles[client].firstName + " " + s.profiles[client].lastName, ClientPaid(s, range, client))
  }

  predicate ByPaidDescending(rows: seq<ClientRow>)
  {
    forall i, j :: 0 <= i < j < |rows| ==> rows[i].paid >= rows[j].paid
  }

  /** A row paying at least the head of a sorted list can go in front of it. */
  lemma ConsDescending(h: ClientRow, rows: seq<ClientRow>)
    requires ByPaidDescending(rows) && (rows == [] || h.paid >= rows[0].paid)
    ensures ByPaidDescending([h] + rows)
  {
    forall i, j | 0 <= i < j < |[h] + rows| ensures ([h] + rows)[i].paid >= ([h] + rows)[j].paid {
      if i == 0 && j > 1 {
        assert rows[0].paid >= rows[j - 1].paid;
      }
    }
  }

  /** Insertion of `x` before the first row that paid no more than it. */
  function Insert(x: ClientRow, rows: seq<ClientRow>): (r: seq<ClientRow>)
    ensures |r| == |rows| + 1
    ensures multiset(r) == multiset(rows) + multiset{x}
  {
    if rows == [] || x.paid >= rows[0].paid then
      [x] + rows
    else
      assert rows == [rows[0]] + rows[1..];
      [rows[0]] + Insert(x, rows[1..])
  }

  /** Insertion into a sorted list keeps it sorted. */
  lemma {:induction false} InsertSorted(x: ClientRow, rows: seq<ClientRow>)
    requires ByPaidDescending(rows)
    ensures ByPaidDescending(Insert(x, rows))
    ensures Insert(x, rows)[0] == x || (rows != [] && Insert(x, rows)[0] == rows[0])
  {
    if rows == [] || x.paid >= rows[0].paid {
      ConsDescending(x, rows);
    } else {
      var tail := rows[1..];
      assert ByPaidDescending(tail) by {
        forall i, j | 0 <= i < j < |tail| ensures tail[i].paid >= tail[j].paid {
          assert tail[i] == rows[i + 1] && tail[j] == rows[j + 1];
        }
      }
      InsertSorted(x, tail);
      ConsDescending(rows[0], Insert(x, tail));
    }
  }

  /** `order by paid desc`, by insertion. */
  function SortByPaid(rows: seq<ClientRow>): (r: seq<ClientRow>)
    ensures ByPaidDescending(r)
    ensures |r| == |rows|
    ensures multiset(r) == multiset(rows)
  {
    if rows == [] then []
    else
      assert rows == [rows[0]] + rows[1..];
      InsertSorted(rows[0], SortByPaid(rows[1..]));
      Insert(rows[0], SortByPaid(rows[1..]))
  }

  function Min(a: nat, b: nat): nat
  {
    if a <= b then a else b
  }

  /** One row per paying client, in ascending id order. */
  function ClientRows(s: Store, range: Range): (rows: seq<ClientRow>)
    ensures |rows| == |SpendingClients(s, range)|
  {
    SpendersAreProfiles(s, range);
    RowsOf(s, range, SortedKeys(SpendingClients(s, range)))
  }

  function RowsOf(s: Store, range: Range, clients: seq<nat>): (rows: seq<ClientRow>)
    requires forall c :: c in clients ==> c in s.profiles
    ensures |rows| == |clients|
  {
    seq(|clients|, i requires 0 <= i < |clients| => RowOf(s, range, clients[i]))
  }

  /** The rows of ascending client ids: one per client, distinct, each the
      client's own row. */
  lemma RowsOfClients(s: Store, range: Range, clients: seq<nat>)
    requires forall c :: c in clients ==> c in s.profiles
    requires Increasing(clients)
    ensures DistinctIds(RowsOf(s, range, clients))
    ensures forall row :: row in RowsOf(s, range, clients) ==>
              row.id in clients && row.id in s.profiles && row == RowOf(s, range, row.id)
  {
    var rows := RowsOf(s, range, clients);
    forall row | row in rows
      ensures row.id in clients && row.id in s.profiles && row == RowOf(s, range, row.id)
    {
      var i :| 0 <= i < |rows| && rows[i] == row;
      assert clients[i] in clients;
    }
  }

  /** `order by paid desc limit :limit` over the given rows. */
  function Top(rows: seq<ClientRow>, limit: nat): (r: seq<ClientRow>)
    ensures |r| == Min(limit, |rows|)
  {
    SortByPaid(rows)[..Min(limit, |rows|)]
  }

  /** The `getBestClients` query. */
  function BestClients(s: Store, range: Range, limit: nat): (r: seq<ClientRow>)
    ensures |r| <= limit
  {
    Top(ClientRows(s, range), limit)
  }

  /** No two rows are about the same client. */
  predicate DistinctIds(rows: seq<ClientRow>)
  {
    forall i, j :: 0 <= i < j < |rows| ==> rows[i].id != rows[j].id
  }

  lemma {:induction false} AtMostOnce(xs: seq<ClientRow>, x: ClientRow)
    requires DistinctIds(xs)
    ensures multiset(xs)[x] <= 1
  {
    if xs != [] {
      assert xs == [xs[0]] + xs[1..];
      assert DistinctIds(xs[1..]) by {
        forall i, j | 0 <= i < j < |xs| - 1 ensures xs[1..][i].id != xs[1..][j].id {
          assert xs[1..][i] == xs[i + 1] && xs[1..][j] == xs[j + 1];
        }
      }
      AtMostOnce(xs[1..], x);
      if xs[0] == x {
        forall k | 0 <= k < |xs| - 1 ensures xs[1..][k] != x {
          assert xs[1..][k] == xs[k + 1];
        }
        assert x !in xs[1..];
      }
    }
  }

  /** A permutation of rows with distinct ids has distinct ids too. */
  lemma PermutationDistinct(a: seq<ClientRow>, b: seq<ClientRow>)
    requires multiset(a) == multiset(b) && DistinctIds(b)
    ensures DistinctIds(a)
  {
    forall i, j | 0 <= i < j < |a| ensures a[i].id != a[j].id {
      if a[i] == a[j] {
        assert a == a[..j] + a[j..];
        assert a[i] in a[..j] && a[j] in a[j..];
        assert multiset(a)[a[i]] == multiset(a[..j])[a[i]] + multiset(a[j..])[a[i]];
        AtMostOnce(b, a[i]);
      } else {
        assert a[i] in multiset(b) && a[j] in multiset(b);
        var p :| 0 <= p < |b| && b[p] == a[i];
        var q :| 0 <= q < |b| && b[q] == a[j];
        assert p != q;
        if p < q { assert b[p].id != b[q].id; } else { assert b[q].id != b[p].id; }
      }
    }
  }

  /** Sorting neither adds nor loses a row. */
  lemma SortedMembers(rows: seq<ClientRow>)
    ensures forall k :: 0 <= k < |SortByPaid(rows)| ==> SortByPaid(rows)[k] in rows
  {
    var sorted := SortByPaid(rows);
    forall k | 0 <= k < |sorted| ensures sorted[k] in rows {
      assert sorted[k] in multiset(rows);
    }
  }

  /** Sorting rows with distinct ids keeps their ids distinct. */
  lemma SortedDistinct(rows: seq<ClientRow>)
    requires DistinctIds(rows)
    ensures DistinctIds(SortByPaid(rows))
  {
    PermutationDistinct(SortByPaid(rows), rows);
  }

  /** Some row of `r` belongs to client `id`. */
  predicate Listed(r: seq<ClientRow>, id: nat)
  {
    exists i :: 0 <= i < |r| && r[i].id == id
  }

  /** The kept rows are in non-increasing order of the total and are rows of
      the input. */
  lemma TopOrdered(rows: seq<ClientRow>, limit: nat)
    ensures ByPaidDescending(Top(rows, limit))
    ensures forall i :: 0 <= i < |Top(rows, limit)| ==> Top(rows, limit)[i] in rows
  {
    SortedMembers(rows);
  }

  /** The kept rows of rows with distinct ids have distinct ids. */
  lemma TopDistinct(rows: seq<ClientRow>, limit: nat)
    requires DistinctIds(rows)
    ensures DistinctIds(Top(rows, limit))
  {
    SortedDistinct(rows);
  }

  /** A row before position `count` is listed among the first `count`. */
  lemma PrefixListed(sorted: seq<ClientRow>, count: nat, k: nat)
    ensures k < count <= |sorted| ==> Listed(sorted[..count], sorted[k].id)
  {
    if k < count <= |sorted| {
      assert sorted[..count][k].id == sorted[k].id;
    }
  }

  /** The position of a row in the sorted list. */
  lemma SortedIndex(rows: seq<ClientRow>, row: ClientRow) returns (k: nat)
    requires row in rows
    ensures k < |SortByPaid(rows)| && SortByPaid(rows)[k] == row
  {
    assert row in multiset(SortByPaid(rows));
    k :| 0 <= k < |SortByPaid(rows)| && SortByPaid(rows)[k] == row;
  }

  /** A row that was not kept paid no more than any row kept. */
  lemma TopLeftOut(rows: seq<ClientRow>, limit: nat, row: ClientRow)
    requires row in rows && !Listed(Top(rows, limit), row.id)
    ensures forall i :: 0 <= i < |Top(rows, limit)| ==> row.paid <= Top(rows, limit)[i].paid
  {
    var sorted := SortByPaid(rows);
    var count := Min(limit, |rows|);
    var k := SortedIndex(rows, row);
    PrefixListed(sorted, count, k);
    assert count <= k;
  }

  /** `row` is the result row of a paying client: its id, name and total. */
  predicate IsClientRow(s: Store, range: Range, row: ClientRow)
  {
    row.id in SpendingClients(s, range) && row.id in s.profiles && row == RowOf(s, range, row.id)
  }

  lemma ClientRowsDistinct(s: Store, range: Range)
    ensures DistinctIds(ClientRows(s, range))
  {
    SpendersAreProfiles(s, range);
    RowsOfClients(s, range, SortedKeys(SpendingClients(s, range)));
  }

  lemma ClientRowIsRow(s: Store, range: Range, row: ClientRow)
    requires row in ClientRows(s, range)
    ensures IsClientRow(s, range, row)
    ensures row.paid == ClientPaid(s, range, row.id)
  {
    SpendersAreProfiles(s, range);
    RowsOfClients(s, range, SortedKeys(SpendingClients(s, range)));
  }

  /** The row of a paying client. */
  lemma ClientRowFor(s: Store, range: Range, c: nat) returns (row: ClientRow)
    requires c in SpendingClients(s, range)
    ensures row in ClientRows(s, range) && row.id == c
    ensures row.paid == ClientPaid(s, range, c)
  {
    var clients := SortedKeys(SpendingClients(s, range));
    SpendersAreProfiles(s, range);
    var i :| 0 <= i < |clients| && clients[i] == c;
    row := ClientRows(s, range)[i];
  }

  /** The report: as many rows as the limit allows, each the row of a
      distinct paying client with the client's name and total, in
      non-increasing order of the total. */
  lemma BestClientsRanked(s: Store, range: Range, limit: nat)
    ensures var r := BestClients(s, range, limit);
      && |r| == Min(limit, |SpendingClients(s, range)|)
      && ByPaidDescending(r)
      && (forall i :: 0 <= i < |r| ==> IsClientRow(s, range, r[i]))
      && DistinctIds(r)
  {
    var rows := ClientRows(s, range);
    var r := BestClients(s, range, limit);
    ClientRowsDistinct(s, range);
    TopOrdered(rows, limit);
    TopDistinct(rows, limit);
    forall i | 0 <= i < |r| ensures IsClientRow(s, range, r[i]) {
      ClientRowIsRow(s, range, r[i]);
    }
  }

  lemma LeftOutClient(s: Store, range: Range, limit: nat, c: nat)
    requires c in SpendingClients(s, range) && !Listed(BestClients(s, range, limit), c)
    ensures forall i :: 0 <= i < |BestClients(s, range, limit)| ==>
              ClientPaid(s, range, c) <= BestClients(s, range, limit)[i].paid
  {
    var row := ClientRowFor(s, range, c);
    TopLeftOut(ClientRows(s, range), limit, row);
  }

  /** Every paying client left out of the report paid no more than any
      client listed. */
  lemma BestClientsTop(s: Store, range: Range, limit: nat)
    ensures var r := BestClients(s, range, limit);
      forall c :: c in SpendingClients(s, range) && !Listed(r, c) ==>
        forall i :: 0 <= i < |r| ==> ClientPaid(s, range, c) <= r[i].paid
  {
    forall c | c in SpendingClients(s, range) && !Listed(BestClients(s, range, limit), c)
      ensures forall i :: 0 <= i < |BestClients(s, range, limit)| ==>
                ClientPaid(s, range, c) <= BestClients(s, range, limit)[i].paid
    {
      LeftOutClient(s, range, limit, c);
    }
  }

  // ---------------------------------------------------------------- limit and endpoints

  /** `z.preprocess((v) => v && parseInt(v), z.number().nonnegative().nullish().default(2))`:
      a missing limit is 2; text that is not a number, or a negative number,
      is refused; a decimal is cut to its integer part by `parseInt`. */
  function ParseLimit(raw: Option<string>): (r: Result<nat, ApiError>)
    ensures raw == None ==> r == Ok(2)
    ensures raw.Some? && (ParseInt(raw.value) == None || ParseInt(raw.value).value < 0) ==> r == Err(InvalidLimit)
    ensures raw.Some? && ParseInt(raw.value).Some? && ParseInt(raw.value).value >= 0 ==> r == Ok(ParseInt(raw.value).value)
  {
    match raw
    case None => Ok(2)
    case Some(v) =>
      match ParseInt(v)
      case None => Err(InvalidLimit)
      case Some(n) => if n < 0 then Err(InvalidLimit) else Ok(n)
  }

  /** Decimal text, with any fraction or trailing text, gives its integer part. */
  lemma ParseLimitDecimal(n: nat, tail: string)
    requires tail == [] || DigitValue(tail[0], 10).None?
    requires n == 0 && tail != [] ==> tail[0] != 'x' && tail[0] != 'X'
    ensures ParseLimit(Some(DecimalString(n) + tail)) == Ok(n)
  {
    ParseIntDecimal(n, tail);
  }

  /** `GET /admin/best-profession`: the date middleware runs first. */
  function BestProfessionEndpoint(s: Store, start: DateParam, end: DateParam): (r: Result<ProfessionEarnings, ApiError>)
    ensures DateRange(start, end).Err? ==> r == Err(DateRange(start, end).error)
    ensures r.Err? ==> r.error in {InvalidStartTime, InvalidEndTime, InvalidRange, NoPaidJobs}
    ensures DateRange(start, end).Ok? ==> r == BestProfession(s, DateRange(start, end).value)
  {
    match DateRange(start, end)
    case Err(e) => Err(e)
    case Ok(range) => BestProfession(s, range)
  }

  /** `GET /admin/best-clients`: the date middleware runs before the limit
      is read, so a bad range is reported even with a bad limit. */
  function BestClientsEndpoint(s: Store, start: DateParam, end: DateParam, rawLimit: Option<string>): (r: Result<seq<ClientRow>, ApiError>)
    ensures DateRange(start, end).Err? ==> r == Err(DateRange(start, end).error)
    ensures DateRange(start, end).Ok? && ParseLimit(rawLimit).Err? ==> r == Err(InvalidLimit)
    ensures r.Ok? ==> ParseLimit(rawLimit).Ok? && |r.value| <= ParseLimit(rawLimit).value
    ensures DateRange(start, end).Ok? && ParseLimit(rawLimit).Ok? ==>
              r == Ok(BestClients(s, DateRange(start, end).value, ParseLimit(rawLimit).value))
  {
    match DateRange(start, end)
    case Err(e) => Err(e)
    case Ok(range) =>
      match ParseLimit(rawLimit)
      case Err(e) => Err(e)
      case Ok(limit) => Ok(BestClients(s, range, limit))
  }
}
