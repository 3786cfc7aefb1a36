/** Issuing shares against a repository: the cached counters, the entries they summarise, and the company summary. */
module CapTable {
  import opened GoBasics
  import opened Arithmetic

  datatype ShareClass = ShareClass(
    id: string, company: string, name: string, kind: string, authorized: int64, issued: int64, outstanding: int64,
    updatedAt: int)

  datatype Entry = Entry(
    id: string, company: string, stakeholder: string, classId: string, shares: int64, price: real, totalValue: real,
    issueDate: int, kind: string, status: string, createdAt: int, updatedAt: int)

  datatype Error = Missing(field: string) | NotPositive | LoadFailed(cause: string) | WrongCompany | Exceeds
                 | CreateFailed(cause: string) | UpdateFailed(cause: string)

  /** What the storage reports for the three calls of one issuance, beyond its own checks. */
  datatype Faults = Faults(load: Option<string>, create: Option<string>, update: Option<string>)

  datatype Store = Store(classes: map<string, ShareClass>, entries: map<string, Entry>, order: seq<string>)

  // ----- the repository

  /** A map-backed repository that hands out and takes in copies. */
  class Repository {
    var classes: map<string, ShareClass>
    var entries: map<string, Entry>
    /** The entries' ids in the order of their creation. */
    ghost var order: seq<string>

    ghost function Contents(): Store
      reads this
    {
      Store(classes, entries, order)
    }

    method GetShareClass(id: string, fault: Option<string>) returns (r: Result<ShareClass, string>)
      ensures r == if fault.Some? then Err(fault.value) else if id in classes then Ok(classes[id]) else Err("not found")
    {
      if fault.Some? {
        return Err(fault.value);
      }
      if id !in classes {
        return Err("not found");
      }
      return Ok(classes[id]);
    }

    method CreateEntry(e: Entry, fault: Option<string>) returns (err: Option<string>)
      modifies this`entries, this`order
      ensures err == if fault.Some? then fault else if e.id in old(entries) then Some("already exists") else None
      ensures err.Some? ==> entries == old(entries) && order == old(order)
      ensures err.None? ==> entries == old(entries)[e.id := e] && order == old(order) + [e.id]
    {
      if fault.Some? {
        return fault;
      }
      if e.id in entries {
        return Some("already exists");
      }
      entries := entries[e.id := e];
      order := order + [e.id];
      return None;
    }

    method UpdateShareClass(sc: ShareClass, fault: Option<string>) returns (err: Option<string>)
      modifies this`classes
      ensures err == if fault.Some? then fault else if sc.id !in old(classes) then Some("not found") else None
      ensures err.Some? ==> classes == old(classes)
      ensures err.None? ==> classes == old(classes)[sc.id := sc]
    {
      if fault.Some? {
        return fault;
      }
      if sc.id !in classes {
        return Some("not found");
      }
      classes := classes[sc.id := sc];
      return None;
    }
  }

  // ----- issuing shares

  function Stamped(e: Entry, now: int): Entry {
    e.(kind := "issuance", status := "active", totalValue := e.shares as real * e.price, createdAt := now,
    updatedAt := now, issueDate := if e.issueDate == 0 then now else e.issueDate)
  }

  /** Why an issuance is refused before its entry is stamped, if it is. */
  function Rejection(st: Store, e: Entry, faults: Faults): Option<Error> {
    if e.company == "" then Some(Missing("company_id"))
    else if e.stakeholder == "" then Some(Missing("stakeholder_id"))
    else if e.classId == "" then Some(Missing("share_class_id"))
    else if e.shares <= 0 then Some(NotPositive)
    else if faults.load.Some? then Some(LoadFailed(faults.load.value))
    else if e.classId !in st.classes then Some(LoadFailed("not found"))
    else if st.classes[e.classId].company != e.company then Some(WrongCompany)
    else if Wrap64(st.classes[e.classId].issued as int + e.shares as int) > st.classes[e.classId].authorized then
      Some(Exceeds)
    else None
  }

  /** Why nothing is written, if nothing is. */
  function Refusal(st: Store, e: Entry, faults: Faults): Option<Error> {
    if Rejection(st, e, faults).Some? then Rejection(st, e, faults)
    else if faults.create.Some? then Some(CreateFailed(faults.create.value))
    else if e.id in st.entries then Some(CreateFailed("already exists"))
    else None
  }

  function WithEntry(st: Store, e: Entry): Store {
    st.(entries := st.entries[e.id := e], order := st.order + [e.id])
  }

  function Counted(sc: ShareClass, shares: int64, now: int): ShareClass {
    sc.(issued := Wrap64(sc.issued as int + shares as int),
    outstanding := Wrap64(sc.outstanding as int + shares as int),
    updatedAt := now)
  }

  /** The store after an issuance: nothing, the entry alone if the update failed, or the entry and the counters. */
  function Issued(st: Store, e: Entry, now: int, faults: Faults): Store {
    if Refusal(st, e, faults).Some? then st
    else if faults.update.Some? then WithEntry(st, Stamped(e, now))
    else
      WithEntry(st, Stamped(e, now)).(classes := st.classes[e.classId := Counted(st.classes[e.classId], e.shares, now)])
  }

  function IssueError(st: Store, e: Entry, faults: Faults): Option<Error> {
    if Refusal(st, e, faults).Some? then Refusal(st, e, faults)
    else if faults.update.Some? then Some(UpdateFailed(faults.update.value))
    else None
  }

  /** Each class is stored under its own id. */
  ghost predicate Keyed(st: Store) {
    forall c <- st.classes.Keys :: st.classes[c].id == c
  }

  class Service {
    const repo: Repository

    constructor (repo: Repository)
      ensures this.repo == repo
    {
      this.repo := repo;
    }

    /** The caller's entry comes back as the call leaves it: stamped once the checks have passed, even if a write
          fails. */
    method IssueShares(e: Entry, now: int, faults: Faults) returns (err: Option<Error>, entry: Entry)
      requires Keyed(repo.Contents())
      modifies repo
      ensures err == IssueError(old(repo.Contents()), e, faults)
      ensures entry == if Rejection(old(repo.Contents()), e, faults).Some? then e else Stamped(e, now)
      ensures repo.Contents() == Issued(old(repo.Contents()), e, now, faults)
    {
      hide Wrap64;
      entry := e;
      if e.company == "" {
        return Some(Missing("company_id")), entry;
      }
      if e.stakeholder == "" {
        return Some(Missing("stakeholder_id")), entry;
      }
      if e.classId == "" {
        return Some(Missing("share_class_id")), entry;
      }
      if e.shares <= 0 {
        return Some(NotPositive), entry;
      }
      var loaded := repo.GetShareClass(e.classId, faults.load);
      if loaded.Err? {
        return Some(LoadFailed(loaded.error)), entry;
      }
      var sc := loaded.value;
      if sc.company != e.company {
        return Some(WrongCompany), entry;
      }
      if Wrap64(sc.issued as int + e.shares as int) > sc.authorized {
        return Some(Exceeds), entry;
      }
      entry := Stamped(e, now);
      var createErr := repo.CreateEntry(entry, faults.create);
      if createErr.Some? {
        return Some(CreateFailed(createErr.value)), entry;
      }
      sc := sc.(issued := Wrap64(sc.issued as int + e.shares as int));
      sc := sc.(outstanding := Wrap64(sc.outstanding as int + e.shares as int));
      sc := sc.(updatedAt := now);
      var updateErr := repo.UpdateShareClass(sc, faults.update);
      if updateErr.Some? {
        return Some(UpdateFailed(updateErr.value)), entry;
      }
      return None, entry;
    }
  }

  // ----- the counters against the entries

  /** The ids in creation order are exactly the stored entries, each once. */
  ghost predicate Ordered(st: Store) {
    && (forall i :: 0 <= i < |st.order| ==> st.order[i] in st.entries)
    && (forall n <- st.entries.Keys :: n in st.order)
    && (forall i, j :: 0 <= i < j < |st.order| ==> st.order[i] != st.order[j])
  }

  function Contribution(entries: map<string, Entry>, n: string, c: string): int {
    if n in entries && entries[n].classId == c && entries[n].kind == "issuance" then entries[n].shares else 0
  }

  /** The shares of the issuance entries of a class. */
  function EntrySum(entries: map<string, Entry>, order: seq<string>, c: string): int {
    if order == [] then 0
    else EntrySum(entries, order[..|order| - 1], c) + Contribution(entries, order[|order| - 1], c)
  }

  function IssuedDrift(st: Store, c: string): int
    requires c in st.classes
  {
    st.classes[c].issued - EntrySum(st.entries, st.order, c)
  }

  function OutstandingDrift(st: Store, c: string): int
    requires c in st.classes
  {
    st.classes[c].outstanding - EntrySum(st.entries, st.order, c)
  }

  lemma {:induction false} FreshEntryElsewhere(entries: map<string, Entry>, order: seq<string>, e: Entry, c: string)
    requires e.id !in order
    ensures EntrySum(entries[e.id := e], order, c) == EntrySum(entries, order, c)
  {
    if order != [] {
      var n := |order| - 1;
      assert order[n] in order;
      FreshEntryElsewhere(entries, order[..n], e, c);
    }
  }

  lemma OrderGrows(st: Store, e: Entry)
    requires Ordered(st) && e.id !in st.entries
    ensures Ordered(WithEntry(st, e)) && e.id !in st.order
  {
  }

  lemma EntrySumGrows(st: Store, e: Entry, c: string)
    requires e.id !in st.order
    ensures EntrySum(WithEntry(st, e).entries, WithEntry(st, e).order, c) ==
            EntrySum(st.entries, st.order, c) + if e.classId == c && e.kind == "issuance" then e.shares else 0
  {
    FreshEntryElsewhere(st.entries, st.order, e, c);
    assert (st.order + [e.id])[..|st.order|] == st.order;
  }

  /** What an issuance writes, case by case. */
  lemma IssuedIs(st: Store, e: Entry, now: int, faults: Faults)
    ensures Refusal(st, e, faults).Some? ==> Issued(st, e, now, faults) == st
    ensures Refusal(st, e, faults).None? ==>
      && e.classId in st.classes && e.id !in st.entries && e.shares > 0
      && Issued(st, e, now, faults) == WithEntry(st, Stamped(e, now)).(classes :=
         if faults.update.Some? then st.classes
         else st.classes[e.classId := Counted(st.classes[e.classId], e.shares, now)])
  {
    hide Wrap64, Counted;
  }

  lemma KeepsShape(st: Store, e: Entry, now: int, faults: Faults)
    requires Ordered(st) && Keyed(st)
    ensures Ordered(Issued(st, e, now, faults)) && Keyed(Issued(st, e, now, faults))
    ensures Issued(st, e, now, faults).classes.Keys == st.classes.Keys
  {
    IssuedIs(st, e, now, faults);
    hide Wrap64, Refusal, Issued, EntrySum;
    if Refusal(st, e, faults).None? {
      OrderGrows(st, Stamped(e, now));
      hide Ordered;
    }
  }

  /** What one counter falls behind its entries in a call that has written an entry: the shares if the update fails,
      and 2^64 if the counter wraps. */
  function Lost(counter: int64, e: Entry, faults: Faults): int {
    if faults.update.Some? then e.shares else if counter + e.shares > MAX_INT64 then TWO_64 else 0
  }

  function IssuedLost(st: Store, e: Entry, faults: Faults, c: string): int {
    if Refusal(st, e, faults).None? && c == e.classId then Lost(st.classes[c].issued, e, faults) else 0
  }

  function OutstandingLost(st: Store, e: Entry, faults: Faults, c: string): int {
    if Refusal(st, e, faults).None? && c == e.classId then Lost(st.classes[c].outstanding, e, faults) else 0
  }

  lemma WrapsOnce(counter: int64, shares: int64)
    requires shares > 0
    ensures Wrap64(counter as int + shares as int) ==
            counter + shares - if counter + shares > MAX_INT64 then TWO_64 else 0
  {
    if counter + shares > MAX_INT64 {
      WrapOfCongruent(counter + shares - TWO_64, 1);
      WrapInRange(counter + shares - TWO_64);
    }
  }

  lemma EntriesAfterIssue(st: Store, e: Entry, now: int, faults: Faults, c: string)
    requires Ordered(st)
    ensures var st' := Issued(st, e, now, faults);
      EntrySum(st'.entries, st'.order, c) ==
      EntrySum(st.entries, st.order, c) + if Refusal(st, e, faults).None? && c == e.classId then e.shares else 0
  {
    IssuedIs(st, e, now, faults);
    hide Wrap64, Refusal, Issued, EntrySum, Counted;
    if Refusal(st, e, faults).None? {
      OrderGrows(st, Stamped(e, now));
      hide Ordered;
      EntrySumGrows(st, Stamped(e, now), c);
    }
  }

  lemma CountersAfterIssue(st: Store, e: Entry, now: int, faults: Faults, c: string)
    requires c in st.classes
    ensures c in Issued(st, e, now, faults).classes
    ensures var st', added := Issued(st, e, now, faults),
          if Refusal(st, e, faults).None? && c == e.classId then e.shares as int else 0;
      && st'.classes[c].issued == st.classes[c].issued + added - IssuedLost(st, e, faults, c)
      && st'.classes[c].outstanding == st.classes[c].outstanding + added - OutstandingLost(st, e, faults, c)
  {
    IssuedIs(st, e, now, faults);
    hide Wrap64, Refusal, Issued, Stamped;
    if Refusal(st, e, faults).None? {
      WrapsOnce(st.classes[e.classId].issued, e.shares);
      WrapsOnce(st.classes[e.classId].outstanding, e.shares);
    }
  }

  /** What one call does to the gap between a class's counters and its entries, whatever fails and whatever wraps. */
  lemma DriftOfIssue(st: Store, e: Entry, now: int, faults: Faults, c: string)
    requires Ordered(st) && c in st.classes
    ensures c in Issued(st, e, now, faults).classes
    ensures IssuedDrift(Issued(st, e, now, faults), c) == IssuedDrift(st, c) - IssuedLost(st, e, faults, c)
    ensures OutstandingDrift(Issued(st, e, now, faults), c) ==
            OutstandingDrift(st, c) - OutstandingLost(st, e, faults, c)
  {
    EntriesAfterIssue(st, e, now, faults, c);
    CountersAfterIssue(st, e, now, faults, c);
    hide Refusal, Issued, EntrySum, Ordered, IssuedLost, OutstandingLost;
  }

  /** Both counters of a class keep their distance from its entries. */
  ghost predicate InStep(st: Store, st': Store, c: string) {
    && c in st.classes && c in st'.classes
    && IssuedDrift(st', c) == IssuedDrift(st, c) && OutstandingDrift(st', c) == OutstandingDrift(st, c)
  }

  datatype Call = Call(e: Entry, now: int, faults: Faults)

  function AfterCall(st: Store, call: Call): Store {
    Issued(st, call.e, call.now, call.faults)
  }

  /** A call that has written an entry for the class stores the counters, and neither wraps. */
  predicate KeepsStep(st: Store, call: Call, c: string) {
    Refusal(st, call.e, call.faults).None? && c == call.e.classId ==>
      && call.faults.update.None?
      && st.classes[c].issued + call.e.shares <= MAX_INT64
      && st.classes[c].outstanding + call.e.shares <= MAX_INT64
  }

  lemma LossesOfCall(st: Store, call: Call, c: string)
    ensures IssuedLost(st, call.e, call.faults, c) >= 0 && OutstandingLost(st, call.e, call.faults, c) >= 0
    ensures KeepsStep(st, call, c) <==>
            IssuedLost(st, call.e, call.faults, c) == 0 && OutstandingLost(st, call.e, call.faults, c) == 0
  {
    hide Wrap64;
  }

  lemma StepOfCall(st: Store, call: Call, c: string)
    requires Ordered(st) && c in st.classes
    ensures InStep(st, AfterCall(st, call), c) <==> KeepsStep(st, call, c)
  {
    DriftOfIssue(st, call.e, call.now, call.faults, c);
    LossesOfCall(st, call, c);
    hide KeepsStep, Issued, IssuedDrift, OutstandingDrift, IssuedLost, OutstandingLost;
  }

  lemma WrittenClassExists(st: Store, e: Entry, faults: Faults)
    requires Refusal(st, e, faults).None?
    ensures e.classId in st.classes.Keys
  {
  }

  /** A call keeps both counters of every class in step exactly when, having written its entry, it stores the counters
      and neither of them wraps. */
  lemma InStepIff(st: Store, call: Call)
    requires Ordered(st)
    ensures (forall c <- st.classes.Keys :: InStep(st, AfterCall(st, call), c))
            <==> (Refusal(st, call.e, call.faults).None? ==>
                    && call.faults.update.None?
                    && st.classes[call.e.classId].issued + call.e.shares <= MAX_INT64
                    && st.classes[call.e.classId].outstanding + call.e.shares <= MAX_INT64)
  {
    forall c <- st.classes.Keys { StepOfCall(st, call, c); }
    hide InStep, AfterCall, Refusal, Ordered;
    if Refusal(st, call.e, call.faults).None? {
      WrittenClassExists(st, call.e, call.faults);
      assert KeepsStep(st, call, call.e.classId) ==> forall c <- st.classes.Keys :: KeepsStep(st, call, c);
    }
  }

  /** An accepted issuance stays within the authorized shares exactly when the counter does not wrap. */
  lemma AuthorizedUnlessWrapped(st: Store, e: Entry, faults: Faults)
    requires Refusal(st, e, faults).None?
    ensures st.classes[e.classId].issued + e.shares <= st.classes[e.classId].authorized
            <==> st.classes[e.classId].issued + e.shares <= MAX_INT64
  {
  }

  const FULL: ShareClass := ShareClass("class", "company", "Common", "common", MAX_INT64, MAX_INT64, MAX_INT64, 0)
  const ONE_MORE: Entry := Entry("entry", "company", "holder", "class", 1, 1.0, 0.0, 0, "", "", 0, 0)

  /** One more share of a class that is already full to the last int64 is accepted: the true count passes the authorized
      shares, and both counters fall 2^64 behind without any failure. */
  lemma WrappedIssueExample(now: int)
    ensures var st, faults := Store(map["class" := FULL], map[], []), Faults(None, None, None);
      && Refusal(st, ONE_MORE, faults).None?
      && FULL.issued + ONE_MORE.shares > FULL.authorized
      && IssuedDrift(st, "class") == MAX_INT64
      && IssuedDrift(Issued(st, ONE_MORE, now, faults), "class") == MIN_INT64 - 1
      && OutstandingDrift(Issued(st, ONE_MORE, now, faults), "class") == MIN_INT64 - 1
      && !InStep(st, Issued(st, ONE_MORE, now, faults), "class")
  {
    var st, faults := Store(map["class" := FULL], map[], []), Faults(None, None, None);
    WrapsOnce(MAX_INT64, 1);
    assert "company" != "" && "holder" != "" && "class" != "";
    assert Refusal(st, ONE_MORE, faults).None?;
    DriftOfIssue(st, ONE_MORE, now, faults, "class");
  }

  // ----- runs of issuances

  function Run(st: Store, calls: seq<Call>): Store
    decreases |calls|
  {
    if calls == [] then st else Run(AfterCall(st, calls[0]), calls[1..])
  }

  ghost predicate WithinAuthorized(st: Store) {
    forall c <- st.classes.Keys :: st.classes[c].issued <= st.classes[c].authorized
  }

  lemma IssueStaysAuthorized(st: Store, call: Call)
    requires WithinAuthorized(st)
    ensures WithinAuthorized(AfterCall(st, call))
  {
    hide Wrap64;
  }

  /** Whatever fails and whatever wraps, no class ever shows more issued than authorized shares. */
  lemma {:induction false} RunStaysAuthorized(st: Store, calls: seq<Call>)
    requires WithinAuthorized(st)
    ensures WithinAuthorized(Run(st, calls))
    decreases |calls|
  {
    hide AfterCall, WithinAuthorized;
    if calls != [] {
      IssueStaysAuthorized(st, calls[0]);
      RunStaysAuthorized(AfterCall(st, calls[0]), calls[1..]);
    }
  }

  /** What a run loses of a class's issued counter, call by call. */
  function RunIssuedLost(st: Store, calls: seq<Call>, c: string): int
    decreases |calls|
  {
    if calls == [] then 0
    else IssuedLost(st, calls[0].e, calls[0].faults, c) + RunIssuedLost(AfterCall(st, calls[0]), calls[1..], c)
  }

  function RunOutstandingLost(st: Store, calls: seq<Call>, c: string): int
    decreases |calls|
  {
    if calls == [] then 0
    else
      OutstandingLost(st, calls[0].e, calls[0].faults, c) + RunOutstandingLost(AfterCall(st, calls[0]), calls[1..], c)
  }

  lemma {:induction false} RunDrift(st: Store, calls: seq<Call>, c: string)
    requires Ordered(st) && Keyed(st) && c in st.classes
    ensures c in Run(st, calls).classes
    ensures IssuedDrift(Run(st, calls), c) == IssuedDrift(st, c) - RunIssuedLost(st, calls, c)
    ensures OutstandingDrift(Run(st, calls), c) == OutstandingDrift(st, c) - RunOutstandingLost(st, calls, c)
    decreases |calls|
  {
    hide IssuedDrift, OutstandingDrift, Ordered, Keyed, Issued, Refusal, IssuedLost, OutstandingLost;
    if calls != [] {
      var call := calls[0];
      KeepsShape(st, call.e, call.now, call.faults);
      DriftOfIssue(st, call.e, call.now, call.faults, c);
      RunDrift(AfterCall(st, call), calls[1..], c);
    }
  }

  /** Over any run, each counter grows by the shares of the issuance entries created for its class, less what failed
      updates and wraps lose. */
  lemma CountersFollowEntries(st: Store, calls: seq<Call>, c: string)
    requires Ordered(st) && Keyed(st) && c in st.classes
    ensures c in Run(st, calls).classes
    ensures var last := Run(st, calls);
      var created := EntrySum(last.entries, last.order, c) - EntrySum(st.entries, st.order, c);
      && last.classes[c].issued == st.classes[c].issued + created - RunIssuedLost(st, calls, c)
      && last.classes[c].outstanding == st.classes[c].outstanding + created - RunOutstandingLost(st, calls, c)
  {
    RunDrift(st, calls, c);
    hide Run, EntrySum, RunIssuedLost, RunOutstandingLost;
  }

  predicate AllKeepStep(st: Store, calls: seq<Call>, c: string)
    decreases |calls|
  {
    calls == [] || (KeepsStep(st, calls[0], c) && AllKeepStep(AfterCall(st, calls[0]), calls[1..], c))
  }

  lemma {:induction false} LossesOfRun(st: Store, calls: seq<Call>, c: string)
    ensures RunIssuedLost(st, calls, c) >= 0 && RunOutstandingLost(st, calls, c) >= 0
    ensures AllKeepStep(st, calls, c) <==> RunIssuedLost(st, calls, c) == 0 && RunOutstandingLost(st, calls, c) == 0
    decreases |calls|
  {
    hide IssuedLost, OutstandingLost, KeepsStep, AfterCall;
    if calls != [] {
      LossesOfCall(st, calls[0], c);
      LossesOfRun(AfterCall(st, calls[0]), calls[1..], c);
    }
  }

  /** Losses never cancel out: a run leaves a class in step exactly when every one of its calls does. */
  lemma RunInStepIff(st: Store, calls: seq<Call>, c: string)
    requires Ordered(st) && Keyed(st) && c in st.classes
    ensures InStep(st, Run(st, calls), c) <==> AllKeepStep(st, calls, c)
  {
    RunDrift(st, calls, c);
    LossesOfRun(st, calls, c);
    hide Run, IssuedDrift, OutstandingDrift, RunIssuedLost, RunOutstandingLost, AllKeepStep;
  }

  // ----- the summary

  datatype ClassSummary = ClassSummary(
    id: string, name: string, kind: string, authorized: int64, issued: int64, outstanding: int64, ownership: real,
    fullyDiluted: real)

  datatype Summary = Summary(
    company: string, authorized: int64, issued: int64, outstanding: int64, stakeholders: nat, fullyDiluted: int64,
    byClass: seq<ClassSummary>)

  function AuthorizedOf(): ShareClass -> int { (c: ShareClass) => c.authorized }
  function IssuedOf(): ShareClass -> int { (c: ShareClass) => c.issued }
  function OutstandingOf(): ShareClass -> int { (c: ShareClass) => c.outstanding }

  /** A listing of exactly the company's classes, each once, in any order. */
  ghost predicate Lists(cs: seq<ShareClass>, classes: map<string, ShareClass>, company: string) {
    && (forall c :: c in cs <==> c.id in classes && classes[c.id] == c && c.company == company)
    && (forall i, j :: 0 <= i < j < |cs| ==> cs[i].id != cs[j].id)
  }

  function Percent(shares: int64, total: int64): real {
    if total > 0 then shares as real / total as real * 100.0 else 0.0
  }

  function SummaryOf(c: ShareClass, totalOutstanding: int64): ClassSummary {
    var pct := Percent(c.outstanding, totalOutstanding);
    ClassSummary(c.id, c.name, c.kind, c.authorized, c.issued, c.outstanding, pct, pct)
  }

  /** The holders of the company's active entries. */
  ghost function Holders(entries: map<string, Entry>, company: string): set<string> {
    set n | n in entries.Keys && entries[n].company == company && entries[n].status == "active"
      :: entries[n].stakeholder
  }

  /** A map walk over the company's classes. */
  method ListShareClasses(repo: Repository, company: string) returns (cs: seq<ShareClass>)
    requires Keyed(repo.Contents())
    ensures Lists(cs, repo.classes, company)
  {
    cs := [];
    var rest := repo.classes.Keys;
    while rest != {}
      invariant rest <= repo.classes.Keys
      invariant forall c :: c in cs <==>
        c.id in repo.classes && c.id !in rest && repo.classes[c.id] == c && c.company == company
      invariant forall i, j :: 0 <= i < j < |cs| ==> cs[i].id != cs[j].id
      decreases |rest|
    {
      var n :| n in rest;
      rest := rest - {n};
      if repo.classes[n].company == company {
        cs := cs + [repo.classes[n]];
      }
    }
  }

  /** A map walk over the company's entries, collecting the holders of the active ones. */
  method CountHolders(repo: Repository, company: string) returns (count: nat)
    ensures count == |Holders(repo.entries, company)|
  {
    var rest := repo.entries.Keys;
    var stakeholders: set<string> := {};
    HoldersAtEnds(repo.entries, company);
    hide Holders, HoldersAmong;
    assert repo.entries.Keys - rest == {};
    while rest != {}
      invariant rest <= repo.entries.Keys
      invariant stakeholders == HoldersAmong(repo.entries, company, repo.entries.Keys - rest)
      decreases |rest|
    {
      var n :| n in rest;
      HoldersGrow(repo.entries, company, repo.entries.Keys - rest, n);
      assert repo.entries.Keys - (rest - {n}) == (repo.entries.Keys - rest) + {n};
      rest := rest - {n};
      if repo.entries[n].company == company && repo.entries[n].status == "active" {
        stakeholders := stakeholders + {repo.entries[n].stakeholder};
      }
    }
    assert repo.entries.Keys - rest == repo.entries.Keys;
    return |stakeholders|;
  }

  ghost function HoldersAmong(entries: map<string, Entry>, company: string, seen: set<string>): set<string> {
    set n | n in seen && n in entries && entries[n].company == company && entries[n].status == "active"
      :: entries[n].stakeholder
  }

  lemma HoldersAtEnds(entries: map<string, Entry>, company: string)
    ensures HoldersAmong(entries, company, {}) == {}
    ensures HoldersAmong(entries, company, entries.Keys) == Holders(entries, company)
  {
  }

  lemma HoldersGrow(entries: map<string, Entry>, company: string, seen: set<string>, n: string)
    requires n in entries
    ensures HoldersAmong(entries, company, seen + {n}) ==
            HoldersAmong(entries, company, seen)
            + if entries[n].company == company && entries[n].status == "active" then {entries[n].stakeholder} else {}
  {
  }

  /** The company's totals and class rows; either listing may fail. */
  method GetSummary(repo: Repository, company: string, classFault: Option<string>, entryFault: Option<string>)
    returns (r: Result<Summary, Error>, ghost cs: seq<ShareClass>)
    requires Keyed(repo.Contents())
    ensures company == "" ==> r == Err(Missing("company_id"))
    ensures company != "" && classFault.Some? ==> r == Err(LoadFailed(classFault.value))
    ensures company != "" && classFault.None? && entryFault.Some? ==> r == Err(LoadFailed(entryFault.value))
    ensures company != "" && classFault.None? && entryFault.None? ==>
      && Lists(cs, repo.classes, company)
      && r.Ok?
      && var s := r.value;
      && s.company == company
      && s.authorized == Wrap64(SumInt(AuthorizedOf(), cs))
      && s.issued == Wrap64(SumInt(IssuedOf(), cs))
      && s.outstanding == s.fullyDiluted == Wrap64(SumInt(OutstandingOf(), cs))
      && s.stakeholders == |Holders(repo.entries, company)|
      && |s.byClass| == |cs| && forall i :: 0 <= i < |cs| ==> s.byClass[i] == SummaryOf(cs[i], s.outstanding)
  {
    hide Wrap64, Holders, Lists;
    cs := [];
    if company == "" {
      return Err(Missing("company_id")), cs;
    }
    if classFault.Some? {
      return Err(LoadFailed(classFault.value)), cs;
    }
    var classes := ListShareClasses(repo, company);
    if entryFault.Some? {
      return Err(LoadFailed(entryFault.value)), cs;
    }
    cs := classes;
    var totalAuth, totalIssued, totalOutstanding := 0, 0, 0;
    var summaries: seq<ClassSummary> := [];
    WrapInRange(0);
    for i := 0 to |classes|
      invariant totalAuth == Wrap64(SumInt(AuthorizedOf(), classes[..i]))
      invariant totalIssued == Wrap64(SumInt(IssuedOf(), classes[..i]))
      invariant totalOutstanding == Wrap64(SumInt(OutstandingOf(), classes[..i]))
      invariant |summaries| == i
      invariant forall k :: 0 <= k < i ==> summaries[k] == Bare(classes[k])
    {
      var sc := classes[i];
      AddClass(AuthorizedOf(), classes, i);
      AddClass(IssuedOf(), classes, i);
      AddClass(OutstandingOf(), classes, i);
      totalAuth := Wrap64(totalAuth as int + sc.authorized as int);
      totalIssued := Wrap64(totalIssued as int + sc.issued as int);
      totalOutstanding := Wrap64(totalOutstanding as int + sc.outstanding as int);
      summaries := summaries + [
        ClassSummary(sc.id, sc.name, sc.kind, sc.authorized, sc.issued, sc.outstanding, 0.0, 0.0)];
    }
    assert classes[..|classes|] == classes;
    var holders := CountHolders(repo, company);
    if totalOutstanding > 0 {
      summaries := AddPercentages(classes, summaries, totalOutstanding);
    } else {
      NoPercentages(classes, totalOutstanding);
    }
    return Ok(Summary(company, totalAuth, totalIssued, totalOutstanding, holders, totalOutstanding, summaries)), cs;
  }

  /** A class row before the percentages are filled in. */
  function Bare(c: ShareClass): ClassSummary {
    ClassSummary(c.id, c.name, c.kind, c.authorized, c.issued, c.outstanding, 0.0, 0.0)
  }

  lemma AddClass(f: ShareClass -> int, cs: seq<ShareClass>, i: nat)
    requires i < |cs|
    ensures Wrap64(SumInt(f, cs[..i + 1])) == Wrap64(Wrap64(SumInt(f, cs[..i])) + f(cs[i]))
  {
    assert cs[..i + 1] == cs[..i] + [cs[i]];
    SumIntSnoc(f, cs[..i], cs[i]);
    WrapAdd(SumInt(f, cs[..i]), f(cs[i]));
  }

  method AddPercentages(cs: seq<ShareClass>, rows: seq<ClassSummary>, total: int64) returns (out: seq<ClassSummary>)
    requires |rows| == |cs| && total > 0 && forall i :: 0 <= i < |cs| ==> rows[i] == Bare(cs[i])
    ensures |out| == |cs| && forall i :: 0 <= i < |cs| ==> out[i] == SummaryOf(cs[i], total)
  {
    out := rows;
    for i := 0 to |out|
      invariant |out| == |cs|
      invariant forall k :: 0 <= k < |cs| ==> out[k] == if k < i then SummaryOf(cs[k], total) else Bare(cs[k])
    {
      var pct := out[i].outstanding as real / total as real * 100.0;
      out := out[i := out[i].(ownership := pct, fullyDiluted := pct)];
    }
  }

  lemma NoPercentages(cs: seq<ShareClass>, total: int64)
    requires total <= 0
    ensures forall c <- cs :: SummaryOf(c, total) == Bare(c)
  {
  }

  // ----- what the summary says

  function Ownership(cs: seq<ShareClass>, total: int64): real {
    if cs == [] then 0.0 else Ownership(cs[..|cs| - 1], total) + Percent(cs[|cs| - 1].outstanding, total)
  }

  lemma {:induction false} OwnershipShare(cs: seq<ShareClass>, total: int64)
    requires total > 0
    ensures Ownership(cs, total) == SumInt(OutstandingOf(), cs) as real / total as real * 100.0
  {
    if cs != [] {
      var n := |cs| - 1;
      OwnershipShare(cs[..n], total);
      AddFractions(SumInt(OutstandingOf(), cs[..n]) as real, cs[n].outstanding as real, total as real);
    }
  }

  lemma AddFractions(x: real, y: real, t: real)
    requires t != 0.0
    ensures x / t * 100.0 + y / t * 100.0 == (x + y) / t * 100.0
  {
    assert (x + y) / t == x / t + y / t;
  }

  lemma SelfQuotient(t: real)
    requires t != 0.0
    ensures t / t == 1.0
  {
  }

  /** The listed ownership adds up to 100 per cent. */
  lemma OwnershipIsWhole(cs: seq<ShareClass>)
    requires 0 < SumInt(OutstandingOf(), cs) <= MAX_INT64
    ensures Ownership(cs, SumInt(OutstandingOf(), cs)) == 100.0
  {
    var total := SumInt(OutstandingOf(), cs);
    OwnershipShare(cs, total);
    SelfQuotient(total as real);
  }

  function EntriesOf(st: Store): ShareClass -> int {
    (c: ShareClass) => EntrySum(st.entries, st.order, c.id)
  }

  /** If every class started without shares, the summary's issued total is the sum of the issuance entries. */
  lemma {:induction false} SummaryCountsEntries(st: Store, cs: seq<ShareClass>)
    requires Keyed(st) && forall c <- cs :: c.id in st.classes && st.classes[c.id] == c && IssuedDrift(st, c.id) == 0
    ensures SumInt(IssuedOf(), cs) == SumInt(EntriesOf(st), cs)
  {
    hide EntrySum;
    if cs != [] {
      SummaryCountsEntries(st, cs[..|cs| - 1]);
      assert cs[|cs| - 1] in cs;
    }
  }

  // ----- what an accepted issuance and a summary hold, field by field

  /** An issuance is accepted exactly with every field given, a positive number of shares, a class of the same company
      that has room for them, a new entry id and no storage fault. */
  lemma AcceptedIff(st: Store, e: Entry, faults: Faults)
    ensures IssueError(st, e, faults).None? <==>
            && e.company != "" && e.stakeholder != "" && e.classId != "" && e.shares > 0
            && e.classId in st.classes && st.classes[e.classId].company == e.company
            && Wrap64(st.classes[e.classId].issued + e.shares) <= st.classes[e.classId].authorized
            && e.id !in st.entries
            && faults.load.None? && faults.create.None? && faults.update.None?
  {
    hide Wrap64;
  }

  /** Why an issuance fails: the first of the checks, in their order, that it does not pass. */
  lemma IssueErrors(st: Store, e: Entry, faults: Faults)
    ensures var err, given := IssueError(st, e, faults), e.company != "" && e.stakeholder != "" && e.classId != "";
      && (e.company == "" ==> err == Some(Missing("company_id")))
      && (e.company != "" && e.stakeholder == "" ==> err == Some(Missing("stakeholder_id")))
      && (e.company != "" && e.stakeholder != "" && e.classId == "" ==> err == Some(Missing("share_class_id")))
      && (given && e.shares <= 0 ==> err == Some(NotPositive))
      && (given && e.shares > 0 ==>
            if faults.load.Some? then err == Some(LoadFailed(faults.load.value))
            else if e.classId !in st.classes then err == Some(LoadFailed("not found"))
            else
              var c := st.classes[e.classId];
              if c.company != e.company then err == Some(WrongCompany)
              else if Wrap64(c.issued + e.shares) > c.authorized then err == Some(Exceeds)
              else if faults.create.Some? then err == Some(CreateFailed(faults.create.value))
              else if e.id in st.entries then err == Some(CreateFailed("already exists"))
              else err == match faults.update case None => None case Some(cause) => Some(UpdateFailed(cause)))
  {
    hide Wrap64;
  }

  /** An accepted issuance stores the caller's entry as an active issuance worth shares x price, dated now unless it
        had a date, and its holder counts among the company's. */
  lemma AcceptedEntry(st: Store, e: Entry, now: int, faults: Faults)
    requires IssueError(st, e, faults).None?
    ensures var st' := Issued(st, e, now, faults);
      && e.id in st'.entries
      && var x := st'.entries[e.id];
      && x.id == e.id && x.company == e.company && x.stakeholder == e.stakeholder && x.classId == e.classId
      && x.shares == e.shares && x.price == e.price && x.totalValue == e.shares as real * e.price
      && x.kind == "issuance" && x.status == "active" && x.createdAt == x.updatedAt == now
      && x.issueDate == (if e.issueDate == 0 then now else e.issueDate)
      && e.stakeholder in Holders(st'.entries, e.company)
  {
    IssuedIs(st, e, now, faults);
    hide Wrap64, Issued, Counted;
    var x := Issued(st, e, now, faults).entries[e.id];
  }

  /** It adds the shares to both counters of its class, as int64 sums are, and dates the class now; every other class
        stays. */
  lemma AcceptedClass(st: Store, e: Entry, now: int, faults: Faults)
    requires IssueError(st, e, faults).None?
    ensures e.classId in st.classes
    ensures var c := st.classes[e.classId];
      Issued(st, e, now, faults).classes == st.classes[e.classId :=
        c.(issued := Wrap64(c.issued + e.shares), outstanding := Wrap64(c.outstanding + e.shares), updatedAt := now)]
  {
    IssuedIs(st, e, now, faults);
    hide Wrap64, Issued;
  }

  /** The holders of a company are those of its active entries. */
  lemma HoldersIff(entries: map<string, Entry>, company: string, h: string)
    ensures h in Holders(entries, company) <==>
            exists n :: n in entries && entries[n].company == company && entries[n].status == "active"
                        && entries[n].stakeholder == h
  {
  }

  /** It takes no holder away, and adds none but its own. */
  lemma HoldersAfterIssue(st: Store, e: Entry, now: int, faults: Faults)
    requires IssueError(st, e, faults).None?
    ensures Holders(Issued(st, e, now, faults).entries, e.company) == Holders(st.entries, e.company) + {e.stakeholder}
  {
    AcceptedEntry(st, e, now, faults);
    IssuedIs(st, e, now, faults);
    hide Wrap64, Issued, IssueError, Refusal;
    var st' := Issued(st, e, now, faults);
    assert st'.entries == st.entries[e.id := st'.entries[e.id]];
    forall h ensures h in Holders(st'.entries, e.company) <==> h in Holders(st.entries, e.company) + {e.stakeholder} {
      if h in Holders(st.entries, e.company) {
        var n :| n in st.entries && st.entries[n].company == e.company && st.entries[n].status == "active"
                 && st.entries[n].stakeholder == h;
        assert st'.entries[n] == st.entries[n];
      }
    }
  }

  /** The rows of a summary over the listed classes. */
  ghost predicate AreRowsOf(rows: seq<ClassSummary>, cs: seq<ShareClass>, total: int64) {
    |rows| == |cs| && forall i :: 0 <= i < |cs| ==> rows[i] == SummaryOf(cs[i], total)
  }

  function RowAuthorized(): ClassSummary -> int { (r: ClassSummary) => r.authorized }
  function RowIssued(): ClassSummary -> int { (r: ClassSummary) => r.issued }
  function RowOutstanding(): ClassSummary -> int { (r: ClassSummary) => r.outstanding }
  function RowOwnership(): ClassSummary -> real { (r: ClassSummary) => r.ownership }
  function RowFullyDiluted(): ClassSummary -> real { (r: ClassSummary) => r.fullyDiluted }

  /** A row carries its class's own names and counts, and the class's part of the outstanding shares in per cent. */
  lemma RowIs(rows: seq<ClassSummary>, cs: seq<ShareClass>, total: int64, i: nat)
    requires AreRowsOf(rows, cs, total) && i < |rows|
    ensures var r, c := rows[i], cs[i];
      && r.id == c.id && r.name == c.name && r.kind == c.kind
      && r.authorized == c.authorized && r.issued == c.issued && r.outstanding == c.outstanding
      && r.fullyDiluted == r.ownership
      && (if total > 0 then r.ownership * total as real == c.outstanding as real * 100.0 else r.ownership == 0.0)
  {
    if total > 0 { PercentIs(cs[i].outstanding, total); }
    hide Percent;
  }

  /** Every class of the company has exactly one row, and no other class has any. */
  lemma RowsCoverCompany(rows: seq<ClassSummary>, cs: seq<ShareClass>, classes: map<string, ShareClass>,
                         company: string, total: int64)
    requires AreRowsOf(rows, cs, total) && Lists(cs, classes, company)
    requires forall n <- classes.Keys :: classes[n].id == n
    ensures forall i :: 0 <= i < |rows| ==>
      rows[i].id in classes && classes[rows[i].id].company == company
      && rows[i].name == classes[rows[i].id].name && rows[i].outstanding == classes[rows[i].id].outstanding
    ensures forall n <- classes.Keys :: classes[n].company == company ==>
      exists i :: 0 <= i < |rows| && rows[i].id == n
    ensures forall i, j :: 0 <= i < j < |rows| ==> rows[i].id != rows[j].id
  {
    hide Percent;
    forall i | 0 <= i < |rows| ensures cs[i] in cs {}
    forall n <- classes.Keys | classes[n].company == company ensures exists i :: 0 <= i < |rows| && rows[i].id == n {
      assert classes[n] in cs;
      var i :| 0 <= i < |cs| && cs[i] == classes[n];
      assert rows[i].id == n;
    }
  }

  lemma PercentIs(shares: int64, total: int64)
    requires total > 0
    ensures Percent(shares, total) * total as real == shares as real * 100.0
  {
    var q := shares as real / total as real;
    assert q * total as real == shares as real;
    assert (q * 100.0) * total as real == (q * total as real) * 100.0;
  }

  /** The totals of a summary are those of its rows, and its rows' percentages add up to 100. */
  lemma RowsAddUp(rows: seq<ClassSummary>, cs: seq<ShareClass>, total: int64)
    requires AreRowsOf(rows, cs, total)
    ensures SumInt(AuthorizedOf(), cs) == SumInt(RowAuthorized(), rows)
    ensures SumInt(IssuedOf(), cs) == SumInt(RowIssued(), rows)
    ensures SumInt(OutstandingOf(), cs) == SumInt(RowOutstanding(), rows)
    ensures total > 0 && total == SumInt(RowOutstanding(), rows) ==>
      SumReal(RowOwnership(), rows) == 100.0 && SumReal(RowFullyDiluted(), rows) == 100.0
  {
    RowSums(rows, cs, total);
    if total > 0 && total == SumInt(RowOutstanding(), rows) { OwnershipIsWhole(cs); }
    hide *;
  }

  lemma {:induction false} RowSums(rows: seq<ClassSummary>, cs: seq<ShareClass>, total: int64)
    requires AreRowsOf(rows, cs, total)
    ensures SumInt(AuthorizedOf(), cs) == SumInt(RowAuthorized(), rows)
    ensures SumInt(IssuedOf(), cs) == SumInt(RowIssued(), rows)
    ensures SumInt(OutstandingOf(), cs) == SumInt(RowOutstanding(), rows)
    ensures SumReal(RowOwnership(), rows) == SumReal(RowFullyDiluted(), rows) == Ownership(cs, total)
  {
    hide Percent;
    if cs != [] {
      var n := |cs| - 1;
      RowSums(rows[..n], cs[..n], total);
    }
  }
}
