/** Validation of the retained-run index: which deletions an accepted index authorises. */
module RunsRetention {
  import opened Prelude

  datatype Target = Target(kind: string, path: string)

  datatype Disposition = RetainActive | RetainLocal | ManualReviewHold | Quarantine | DeleteAuthorized

  datatype ScrubStatus = ScrubPending | ScrubNotRequired | ScrubVerified

  datatype ReviewStatus = ReviewPending | ReviewNotRequired | ReviewComplete

  /** `shapeValid` stands for the field-level checks (keys, types, path and time formats, storage). Times are
      whole seconds. */
  datatype Entry = Entry(
    target: Target,
    purpose: string,
    restricted: bool,
    risks: seq<string>,
    disposition: Disposition,
    expiresAt: Option<int>,
    quarantineUntil: Option<int>,
    sourceChecksum: bool,
    archiveChecksum: bool,
    scrub: ScrubStatus,
    restoreVerified: bool,
    review: ReviewStatus,
    authorization: Option<string>,
    shapeValid: bool)

  datatype Authorization = Authorization(
    id: string,
    byOwner: bool,
    authorizedAt: int,
    fingerprint: string,
    targets: seq<Target>,
    preconditionsTrue: bool,
    shapeValid: bool)

  datatype Header = Header(policyId: string, fingerprint: string, example: bool, shapeValid: bool)

  datatype Line =
    | HeaderLine(header: Header)
    | EntryLine(entry: Entry)
    | AuthorizationLine(authorization: Authorization)
    | UnknownLine

  /** Purpose classes and whether the policy lets them be deleted. */
  datatype RetentionPolicy = RetentionPolicy(id: string, eligible: map<string, bool>, reviewTrigger: string)

  const PERMANENT: set<string> := {"contract_golden", "unique_research_evidence", "unclassified_hold"}

  datatype IndexError =
    | EmptyIndex
    | BadHeader
    | UnsupportedRecord
    | BadEntry(target: Target)
    | DuplicateTarget(target: Target)
    | BadAuthorization(id: string)
    | DuplicateAuthorization(id: string)
    | MissingAuthorization(id: string)
    | NotDeletable(target: Target)
    | UnusedAuthorization
    | TargetsDiffer(id: string)
    | ExampleAuthorizes

  datatype Index = Index(header: Header, entries: seq<Entry>, authorizations: seq<Authorization>)

  datatype Result = Accepted(index: Index) | Rejected(error: IndexError)

  function EntriesIn(lines: seq<Line>): seq<Entry> {
    if lines == [] then [] else
    var last := lines[|lines| - 1];
    EntriesIn(lines[..|lines| - 1]) + (if last.EntryLine? then [last.entry] else [])
  }

  function AuthorizationsIn(lines: seq<Line>): seq<Authorization> {
    if lines == [] then [] else
    var last := lines[|lines| - 1];
    AuthorizationsIn(lines[..|lines| - 1]) + (if last.AuthorizationLine? then [last.authorization] else [])
  }

  predicate ValidEntry(e: Entry, policy: RetentionPolicy) {
    && e.shapeValid
    && e.purpose in policy.eligible
    && (e.restricted <==> e.risks != [])
    && (e.purpose in PERMANENT ==>
          e.expiresAt.None? && e.quarantineUntil.None? && !e.disposition.Quarantine? && !e.disposition.DeleteAuthorized?)
    && (e.purpose !in PERMANENT ==> e.expiresAt.Some?)
    && (if policy.reviewTrigger in e.risks then e.review != ReviewNotRequired else e.review != ReviewPending)
    && (e.disposition.DeleteAuthorized? <==> e.authorization.Some?)
  }

  predicate DistinctTargets(targets: seq<Target>) {
    forall i, j :: 0 <= i < j < |targets| ==> targets[i] != targets[j]
  }

  predicate ValidAuthorization(a: Authorization, header: Header) {
    && a.shapeValid && a.byOwner && a.fingerprint == header.fingerprint
    && a.targets != [] && DistinctTargets(a.targets) && a.preconditionsTrue
  }

  /** Everything the deletion of an entry needs once its authorization is known. */
  predicate Deletable(e: Entry, a: Authorization, policy: RetentionPolicy) {
    && e.purpose in policy.eligible && policy.eligible[e.purpose]
    && e.sourceChecksum && e.archiveChecksum && e.restoreVerified && !e.scrub.ScrubPending?
    && (policy.reviewTrigger in e.risks ==> e.review == ReviewComplete)
    && e.expiresAt.Some? && e.quarantineUntil.Some?
    && e.expiresAt.value <= a.authorizedAt && e.quarantineUntil.value <= a.authorizedAt
  }

  predicate Cites(e: Entry, id: string) { e.disposition.DeleteAuthorized? && e.authorization == Some(id) }

  function TargetSet(a: Authorization): set<Target> { set i | 0 <= i < |a.targets| :: a.targets[i] }

  /** The targets of the entries that cite an authorization. */
  function CitingTargets(entries: seq<Entry>, id: string): set<Target> {
    set i | 0 <= i < |entries| && Cites(entries[i], id) :: entries[i].target
  }

  predicate DistinctEntries(entries: seq<Entry>) {
    forall i, j :: 0 <= i < j < |entries| ==> entries[i].target != entries[j].target
  }

  predicate DistinctIds(authorizations: seq<Authorization>) {
    forall i, j :: 0 <= i < j < |authorizations| ==> authorizations[i].id != authorizations[j].id
  }

  predicate HeaderFirst(lines: seq<Line>) {
    lines != [] && lines[0].HeaderLine? && forall i :: 1 <= i < |lines| ==> !lines[i].HeaderLine?
  }

  predicate KnownLines(lines: seq<Line>) { forall i :: 0 <= i < |lines| ==> !lines[i].UnknownLine? }

  predicate ValidHeader(header: Header, policy: RetentionPolicy) { header.shapeValid && header.policyId == policy.id }

  /** Authorization `a` names entry `e` and every condition for deleting it holds. */
  predicate Authorises(a: Authorization, e: Entry, policy: RetentionPolicy) {
    e.authorization == Some(a.id) && Deletable(e, a, policy)
  }

  /** Each deletion is backed by an authorization of the index. */
  ghost predicate DeletionsBacked(index: Index, policy: RetentionPolicy) {
    forall i :: 0 <= i < |index.entries| && index.entries[i].disposition.DeleteAuthorized? ==>
      exists j :: 0 <= j < |index.authorizations| && Authorises(index.authorizations[j], index.entries[i], policy)
  }

  ghost predicate AuthorizationsExact(index: Index) {
    forall j :: 0 <= j < |index.authorizations| ==>
      TargetSet(index.authorizations[j]) == CitingTargets(index.entries, index.authorizations[j].id)
  }

  /** What an acceptable index is. */
  ghost predicate Acceptable(lines: seq<Line>, policy: RetentionPolicy) {
    && HeaderFirst(lines) && KnownLines(lines) && ValidHeader(lines[0].header, policy)
    && ValidIndex(Index(lines[0].header, EntriesIn(lines), AuthorizationsIn(lines)), policy)
  }

  ghost predicate ValidIndex(index: Index, policy: RetentionPolicy) {
    && (forall i :: 0 <= i < |index.entries| ==> ValidEntry(index.entries[i], policy))
    && DistinctEntries(index.entries)
    && (forall j :: 0 <= j < |index.authorizations| ==> ValidAuthorization(index.authorizations[j], index.header))
    && DistinctIds(index.authorizations)
    && DeletionsBacked(index, policy)
    && AuthorizationsExact(index)
    && (index.header.example ==> index.authorizations == [])
  }

  /** What each error says is wrong with the index. */
  ghost predicate Explains(error: IndexError, index: Index, policy: RetentionPolicy) {
    var entries, authorizations := index.entries, index.authorizations;
    match error
    case EmptyIndex | UnsupportedRecord => true
    case BadHeader => !ValidHeader(index.header, policy)
    case BadEntry(t) => exists i :: 0 <= i < |entries| && entries[i].target == t && !ValidEntry(entries[i], policy)
    case DuplicateTarget(t) => exists i, j :: 0 <= i < j < |entries| && entries[i].target == t == entries[j].target
    case BadAuthorization(id) =>
      exists j :: 0 <= j < |authorizations| && authorizations[j].id == id
                  && !ValidAuthorization(authorizations[j], index.header)
    case DuplicateAuthorization(id) =>
      exists i, j :: 0 <= i < j < |authorizations| && authorizations[i].id == id == authorizations[j].id
    case MissingAuthorization(id) =>
      && (exists i :: 0 <= i < |entries| && Cites(entries[i], id))
      && (forall j :: 0 <= j < |authorizations| ==> authorizations[j].id != id)
    case NotDeletable(t) =>
      exists i, j :: 0 <= i < |entries| && 0 <= j < |authorizations| && entries[i].target == t
                     && Cites(entries[i], authorizations[j].id) && !Deletable(entries[i], authorizations[j], policy)
    case UnusedAuthorization =>
      exists j :: 0 <= j < |authorizations| && CitingTargets(entries, authorizations[j].id) == {}
    case TargetsDiffer(id) =>
      exists j :: 0 <= j < |authorizations| && authorizations[j].id == id
                  && TargetSet(authorizations[j]) != CitingTargets(entries, id)
    case ExampleAuthorizes => index.header.example && authorizations != []
  }

  /** What a rejection says of the lines. */
  ghost predicate ExplainsLines(error: IndexError, lines: seq<Line>, policy: RetentionPolicy) {
    match error
    case EmptyIndex => lines == []
    case UnsupportedRecord => lines != [] && lines[0].HeaderLine? && !(HeaderFirst(lines) && KnownLines(lines))
    case BadHeader => lines != [] && !(lines[0].HeaderLine? && ValidHeader(lines[0].header, policy))
    case _ =>
      && lines != [] && lines[0].HeaderLine?
      && Explains(error, Index(lines[0].header, EntriesIn(lines), AuthorizationsIn(lines)), policy)
  }

  method SplitLines(lines: seq<Line>) returns (entries: seq<Entry>, authorizations: seq<Authorization>, supported: bool)
    requires lines != [] && lines[0].HeaderLine?
    ensures entries == EntriesIn(lines) && authorizations == AuthorizationsIn(lines)
    ensures supported <==> HeaderFirst(lines) && KnownLines(lines)
  {
    entries, authorizations, supported := [], [], true;
    for i := 0 to |lines|
      invariant entries == EntriesIn(lines[..i]) && authorizations == AuthorizationsIn(lines[..i])
      invariant supported <==> forall j :: 0 <= j < i ==> !lines[j].UnknownLine? && (j > 0 ==> !lines[j].HeaderLine?)
    {
      assert lines[..i + 1][..i] == lines[..i];
      match lines[i] {
        case EntryLine(e) => entries := entries + [e];
        case AuthorizationLine(a) => authorizations := authorizations + [a];
        case HeaderLine(_) => supported := supported && i == 0;
        case UnknownLine => supported := false;
      }
    }
    assert lines[..|lines|] == lines;
  }

  method CheckEntries(entries: seq<Entry>, policy: RetentionPolicy, ghost index: Index)
    returns (error: Option<IndexError>)
    requires index.entries == entries
    ensures error.Some? ==> (error.value.BadEntry? || error.value.DuplicateTarget?) && Explains(error.value, index, policy)
    ensures error.None? <==>
      (forall i :: 0 <= i < |entries| ==> ValidEntry(entries[i], policy)) && DistinctEntries(entries)
  {
    var targets: set<Target> := {};
    for i := 0 to |entries|
      invariant targets == set j | 0 <= j < i :: entries[j].target
      invariant forall j :: 0 <= j < i ==> ValidEntry(entries[j], policy)
      invariant forall j, k :: 0 <= j < k < i ==> entries[j].target != entries[k].target
    {
      if !ValidEntry(entries[i], policy) {
        return Some(BadEntry(entries[i].target));
      }
      if entries[i].target in targets {
        return Some(DuplicateTarget(entries[i].target));
      }
      targets := targets + {entries[i].target};
    }
    error := None;
  }

  /** `table` maps the ids of the authorizations to the authorizations. */
  ghost predicate Indexes(table: map<string, Authorization>, authorizations: seq<Authorization>) {
    && (forall j :: 0 <= j < |authorizations| ==>
          authorizations[j].id in table && table[authorizations[j].id] == authorizations[j])
    && (forall id :: id in table ==> exists j :: 0 <= j < |authorizations| && authorizations[j].id == id)
  }

  method CheckAuthorizations(authorizations: seq<Authorization>, header: Header, ghost index: Index,
                             ghost policy: RetentionPolicy)
    returns (error: Option<IndexError>, table: map<string, Authorization>)
    requires index.authorizations == authorizations && index.header == header
    ensures error.Some? ==>
      (error.value.BadAuthorization? || error.value.DuplicateAuthorization?) && Explains(error.value, index, policy)
    ensures error.None? <==>
      && (forall j :: 0 <= j < |authorizations| ==> ValidAuthorization(authorizations[j], header))
      && DistinctIds(authorizations)
    ensures error.None? ==> Indexes(table, authorizations)
  {
    hide ValidAuthorization;
    table := map[];
    for i := 0 to |authorizations|
      invariant forall j :: 0 <= j < i ==> ValidAuthorization(authorizations[j], header)
      invariant forall j, k :: 0 <= j < k < i ==> authorizations[j].id != authorizations[k].id
      invariant Indexes(table, authorizations[..i])
    {
      var a := authorizations[i];
      if !ValidAuthorization(a, header) {
        error := Some(BadAuthorization(a.id));
        return;
      }
      if a.id in table {
        error := Some(DuplicateAuthorization(a.id));
        return;
      }
      ghost var before := table;
      table := table[a.id := a];
      IndexesSnoc(before, authorizations[..i], a);
      assert authorizations[..i + 1] == authorizations[..i] + [a];
    }
    assert authorizations[..|authorizations|] == authorizations;
    error := None;
  }

  lemma IndexesSnoc(table: map<string, Authorization>, authorizations: seq<Authorization>, a: Authorization)
    requires Indexes(table, authorizations) && a.id !in table
    ensures Indexes(table[a.id := a], authorizations + [a])
  {
    var longer, extended := authorizations + [a], table[a.id := a];
    assert longer[|authorizations|] == a;
    forall id | id in extended ensures exists j :: 0 <= j < |longer| && longer[j].id == id {
      if id != a.id {
        var j :| 0 <= j < |authorizations| && authorizations[j].id == id;
        assert longer[j].id == id;
      }
    }
  }

  /** `cited` collects, per authorization, the targets of the entries seen so far that cite it. */
  ghost predicate Collects(cited: map<string, set<Target>>, entries: seq<Entry>) {
    && (forall id :: id in cited ==> cited[id] == CitingTargets(entries, id) && cited[id] != {})
    && (forall id :: id !in cited ==> CitingTargets(entries, id) == {})
  }

  lemma CitingSnoc(entries: seq<Entry>, e: Entry, id: string)
    ensures CitingTargets(entries + [e], id)
         == CitingTargets(entries, id) + (if Cites(e, id) then {e.target} else {})
  {
    var longer := entries + [e];
    forall t | t in CitingTargets(entries, id) + (if Cites(e, id) then {e.target} else {})
      ensures t in CitingTargets(longer, id)
    {
      if t in CitingTargets(entries, id) {
        var i :| 0 <= i < |entries| && Cites(entries[i], id) && entries[i].target == t;
        assert longer[i] == entries[i];
      } else {
        assert longer[|entries|] == e;
      }
    }
  }

  function Collected(cited: map<string, set<Target>>, id: string): set<Target> {
    if id in cited then cited[id] else {}
  }

  lemma CollectsSnoc(cited: map<string, set<Target>>, entries: seq<Entry>, e: Entry)
    requires Collects(cited, entries)
    ensures e.disposition.DeleteAuthorized? && e.authorization.Some? ==>
      Collects(cited[e.authorization.value := Collected(cited, e.authorization.value) + {e.target}], entries + [e])
    ensures !e.disposition.DeleteAuthorized? ==> Collects(cited, entries + [e])
  {
    hide CitingTargets;
    forall id ensures CitingTargets(entries + [e], id)
                   == CitingTargets(entries, id) + (if Cites(e, id) then {e.target} else {}) {
      CitingSnoc(entries, e, id);
    }
  }

  ghost predicate Backed(e: Entry, table: map<string, Authorization>, policy: RetentionPolicy) {
    e.disposition.DeleteAuthorized? ==>
      e.authorization.Some? && e.authorization.value in table && Deletable(e, table[e.authorization.value], policy)
  }

  method CheckDeletions(entries: seq<Entry>, table: map<string, Authorization>, policy: RetentionPolicy,
                        ghost index: Index)
    returns (error: Option<IndexError>, cited: map<string, set<Target>>)
    requires index.entries == entries && Indexes(table, index.authorizations)
    requires forall i :: 0 <= i < |entries| ==> ValidEntry(entries[i], policy)
    ensures error.Some? ==>
      (error.value.MissingAuthorization? || error.value.NotDeletable?) && Explains(error.value, index, policy)
    ensures error.None? <==> forall i :: 0 <= i < |entries| ==> Backed(entries[i], table, policy)
    ensures error.None? ==> Collects(cited, entries)
  {
    cited := map[];
    for i := 0 to |entries|
      invariant forall j :: 0 <= j < i ==> Backed(entries[j], table, policy)
      invariant Collects(cited, entries[..i])
    {
      var e := entries[i];
      assert entries[..i + 1] == entries[..i] + [e];
      CollectsSnoc(cited, entries[..i], e);
      if !e.disposition.DeleteAuthorized? {
        continue;
      }
      assert ValidEntry(e, policy);
      var id := e.authorization.value;
      if id !in table {
        error := Some(MissingAuthorization(id));
        return;
      }
      cited := cited[id := Collected(cited, id) + {e.target}];
      if !Deletable(e, table[id], policy) {
        error := Some(NotDeletable(e.target));
        return;
      }
    }
    assert entries[..|entries|] == entries;
    error := None;
  }

  /** The last two tests: every authorization is used, and its targets are exactly those of its entries. The
      lookup in the second loop cannot fail, because the first test passed. */
  method CheckTargets(authorizations: seq<Authorization>, entries: seq<Entry>, cited: map<string, set<Target>>,
                      ghost index: Index, ghost policy: RetentionPolicy)
    returns (error: Option<IndexError>)
    requires Collects(cited, entries) && index.entries == entries && index.authorizations == authorizations
    ensures error.Some? ==>
      (error.value.UnusedAuthorization? || error.value.TargetsDiffer?) && Explains(error.value, index, policy)
    requires forall j :: 0 <= j < |authorizations| ==> authorizations[j].targets != []
    ensures error.None? <==> forall j :: 0 <= j < |authorizations| ==>
      TargetSet(authorizations[j]) == CitingTargets(entries, authorizations[j].id)
  {
    hide CitingTargets;
    for i := 0 to |authorizations|
      invariant forall j :: 0 <= j < i ==> authorizations[j].id in cited
    {
      if authorizations[i].id !in cited {
        assert authorizations[i].targets[0] in TargetSet(authorizations[i]);
        assert CitingTargets(entries, authorizations[i].id) == {};
        return Some(UnusedAuthorization);
      }
    }
    for i := 0 to |authorizations|
      invariant forall j :: 0 <= j < i ==>
        TargetSet(authorizations[j]) == CitingTargets(entries, authorizations[j].id)
    {
      if TargetSet(authorizations[i]) != cited[authorizations[i].id] {
        return Some(TargetsDiffer(authorizations[i].id));
      }
    }
    error := None;
  }

  lemma BackedByTable(index: Index, table: map<string, Authorization>, policy: RetentionPolicy)
    requires Indexes(table, index.authorizations)
    ensures DeletionsBacked(index, policy) <==>
      forall i :: 0 <= i < |index.entries| ==> Backed(index.entries[i], table, policy)
  {
    hide Deletable;
    if forall i :: 0 <= i < |index.entries| ==> Backed(index.entries[i], table, policy) {
      forall i | 0 <= i < |index.entries| && index.entries[i].disposition.DeleteAuthorized?
        ensures exists j ::
          0 <= j < |index.authorizations| && Authorises(index.authorizations[j], index.entries[i], policy)
      {
        var id := index.entries[i].authorization.value;
        assert Backed(index.entries[i], table, policy);
        var j :| 0 <= j < |index.authorizations| && index.authorizations[j].id == id;
        assert table[id] == index.authorizations[j];
      }
    }
  }

  /** The whole validation accepts exactly the acceptable indexes. */
  method LoadAndValidateIndex(lines: seq<Line>, policy: RetentionPolicy) returns (result: Result)
    ensures result.Accepted? <==> Acceptable(lines, policy)
    ensures result.Accepted? ==>
      && result.index == Index(lines[0].header, EntriesIn(lines), AuthorizationsIn(lines))
      && ValidIndex(result.index, policy)
    ensures result.Rejected? ==> ExplainsLines(result.error, lines, policy)
  {
    hide Explains;
    hide ValidEntry, ValidAuthorization, Deletable, DistinctEntries, DistinctIds, EntriesIn, AuthorizationsIn,
         DeletionsBacked, Backed, Indexes, Collects, TargetSet, CitingTargets;
    if lines == [] {
      return Rejected(EmptyIndex);
    }
    if !lines[0].HeaderLine? {
      return Rejected(BadHeader);
    }
    var entries, authorizations, supported := SplitLines(lines);
    if !supported {
      return Rejected(UnsupportedRecord);
    }
    var header := lines[0].header;
    if !ValidHeader(header, policy) {
      return Rejected(BadHeader);
    }
    var index := Index(header, entries, authorizations);
    var error := CheckEntries(entries, policy, index);
    if error.Some? {
      return Rejected(error.value);
    }
    var table;
    error, table := CheckAuthorizations(authorizations, header, index, policy);
    if error.Some? {
      return Rejected(error.value);
    }
    BackedByTable(index, table, policy);
    var cited;
    error, cited := CheckDeletions(entries, table, policy, index);
    if error.Some? {
      return Rejected(error.value);
    }
    TargetsNonempty(authorizations, header);
    error := CheckTargets(authorizations, entries, cited, index, policy);
    if error.Some? {
      return Rejected(error.value);
    }
    if header.example && authorizations != [] {
      ExampleExplained(index, policy);
      return Rejected(ExampleAuthorizes);
    }
    result := Accepted(index);
  }

  lemma ExampleExplained(index: Index, policy: RetentionPolicy)
    requires index.header.example && index.authorizations != []
    ensures Explains(ExampleAuthorizes, index, policy)
  {
  }

  lemma TargetsNonempty(authorizations: seq<Authorization>, header: Header)
    requires forall j :: 0 <= j < |authorizations| ==> ValidAuthorization(authorizations[j], header)
    ensures forall j :: 0 <= j < |authorizations| ==> authorizations[j].targets != []
  {
  }

  // ----- What acceptance means -----

  /** In an accepted index the target sets of the authorizations are pairwise disjoint. */
  lemma AuthorizationsDisjoint(index: Index, policy: RetentionPolicy, i: nat, j: nat)
    requires ValidIndex(index, policy) && i < j < |index.authorizations|
    ensures TargetSet(index.authorizations[i]) !! TargetSet(index.authorizations[j])
  {
    var a, b := index.authorizations[i], index.authorizations[j];
    forall t | t in TargetSet(a) ensures t !in TargetSet(b) {
      if t in TargetSet(b) {
        OneCitation(index.entries, a.id, b.id, t);
      }
    }
  }

  lemma OneCitation(entries: seq<Entry>, a: string, b: string, t: Target)
    requires DistinctEntries(entries) && t in CitingTargets(entries, a) && t in CitingTargets(entries, b)
    ensures a == b
  {
    var p :| 0 <= p < |entries| && Cites(entries[p], a) && entries[p].target == t;
    var q :| 0 <= q < |entries| && Cites(entries[q], b) && entries[q].target == t;
    assert p == q;
  }

  /** Together the authorizations cover exactly the entries marked for deletion: a target is authorised by
      some record exactly when it belongs to such an entry. */
  lemma AuthorizationsCoverDeletions(index: Index, policy: RetentionPolicy, t: Target)
    requires ValidIndex(index, policy)
    ensures (exists j :: 0 <= j < |index.authorizations| && t in TargetSet(index.authorizations[j]))
       <==> (exists i :: 0 <= i < |index.entries| && index.entries[i].disposition.DeleteAuthorized?
                         && index.entries[i].target == t)
  {
    if j :| 0 <= j < |index.authorizations| && t in TargetSet(index.authorizations[j]) {
      assert t in CitingTargets(index.entries, index.authorizations[j].id);
    }
    if i :| 0 <= i < |index.entries| && index.entries[i].disposition.DeleteAuthorized? && index.entries[i].target == t {
      var j :| 0 <= j < |index.authorizations| && Authorises(index.authorizations[j], index.entries[i], policy);
      assert t in CitingTargets(index.entries, index.authorizations[j].id);
      assert t in TargetSet(index.authorizations[j]);
    }
  }

  /** Entry `e` for target `t` cites `a`, its class may be deleted and is not permanent, its retention and its
      quarantine were over when `a` was given, and checksums, restore, scrub and review are in order. */
  predicate SafelyDeleted(e: Entry, t: Target, a: Authorization, policy: RetentionPolicy) {
    && e.target == t && e.disposition == DeleteAuthorized && e.authorization == Some(a.id)
    && e.purpose !in PERMANENT && e.purpose in policy.eligible && policy.eligible[e.purpose]
    && e.expiresAt.Some? && e.expiresAt.value <= a.authorizedAt
    && e.quarantineUntil.Some? && e.quarantineUntil.value <= a.authorizedAt
    && e.sourceChecksum && e.archiveChecksum && e.restoreVerified && e.scrub != ScrubPending
    && (policy.reviewTrigger in e.risks ==> e.review == ReviewComplete)
  }

  /** Every target of every authorization of an accepted index belongs to an entry of a deletable class whose
      retention and quarantine ended by the time of the authorization, with verified checksums, restore and
      review; and nothing permanent is ever authorised. */
  lemma AuthorizedDeletionsAreSafe(index: Index, policy: RetentionPolicy, j: nat, t: Target)
    requires ValidIndex(index, policy) && j < |index.authorizations| && t in TargetSet(index.authorizations[j])
    ensures exists i :: 0 <= i < |index.entries| && SafelyDeleted(index.entries[i], t, index.authorizations[j], policy)
  {
    var a := index.authorizations[j];
    assert t in CitingTargets(index.entries, a.id);
    var i :| 0 <= i < |index.entries| && Cites(index.entries[i], a.id) && index.entries[i].target == t;
    CitedSafely(index, policy, i, j);
  }

  lemma CitedSafely(index: Index, policy: RetentionPolicy, i: nat, j: nat)
    requires ValidIndex(index, policy) && i < |index.entries| && j < |index.authorizations|
    requires Cites(index.entries[i], index.authorizations[j].id)
    ensures SafelyDeleted(index.entries[i], index.entries[i].target, index.authorizations[j], policy)
  {
    var k :| 0 <= k < |index.authorizations| && Authorises(index.authorizations[k], index.entries[i], policy);
    assert k == j;
    assert ValidEntry(index.entries[i], policy);
  }

  /** One entry marked for deletion that fails any of these conditions for the authorization it cites, or cites
      none of the index, is enough to reject the index; and no other entry marked for deletion is. */
  lemma UnsafeDeletionIsRejected(index: Index, policy: RetentionPolicy)
    requires (forall i :: 0 <= i < |index.entries| ==> ValidEntry(index.entries[i], policy))
    requires DistinctIds(index.authorizations)
    ensures DeletionsBacked(index, policy) <==>
      forall i :: 0 <= i < |index.entries| && index.entries[i].disposition == DeleteAuthorized ==>
        exists j :: 0 <= j < |index.authorizations|
                    && SafelyDeleted(index.entries[i], index.entries[i].target, index.authorizations[j], policy)
  {
    hide ValidEntry;
    forall i | 0 <= i < |index.entries| && index.entries[i].disposition == DeleteAuthorized
      ensures forall j :: 0 <= j < |index.authorizations| ==>
        (Authorises(index.authorizations[j], index.entries[i], policy) <==>
         SafelyDeleted(index.entries[i], index.entries[i].target, index.authorizations[j], policy))
    {
      assert ValidEntry(index.entries[i], policy);
      NeverPermanent(index.entries[i], policy);
    }
  }

  lemma NeverPermanent(e: Entry, policy: RetentionPolicy)
    requires ValidEntry(e, policy) && e.disposition == DeleteAuthorized
    ensures e.purpose !in PERMANENT
  {
  }

  // ----- Acceptance in terms of the lines -----

  /** What one entry must be, class by class. */
  predicate SoundEntry(e: Entry, policy: RetentionPolicy) {
    && e.shapeValid && e.purpose in policy.eligible
    && (if e.purpose in PERMANENT
        then e.disposition in {RetainActive, RetainLocal, ManualReviewHold} && e.expiresAt == None == e.quarantineUntil
        else e.expiresAt != None)
    && e.restricted == (|e.risks| > 0)
    && e.review in (if policy.reviewTrigger in e.risks then {ReviewPending, ReviewComplete}
                    else {ReviewNotRequired, ReviewComplete})
    && (e.authorization == None) == (e.disposition != DeleteAuthorized)
  }

  predicate SoundAuthorization(a: Authorization, header: Header) {
    && a.shapeValid && a.byOwner && a.preconditionsTrue && a.fingerprint == header.fingerprint
    && |a.targets| > 0 && forall i, j :: 0 <= i < |a.targets| && 0 <= j < |a.targets| && i != j ==>
                             a.targets[i] != a.targets[j]
  }

  /** Line `i` marks target `t` for deletion under authorization `id`. */
  predicate MarksAt(lines: seq<Line>, i: nat, id: string, t: Target) {
    && i < |lines| && lines[i].EntryLine? && lines[i].entry.target == t
    && lines[i].entry.disposition == DeleteAuthorized && lines[i].entry.authorization == Some(id)
  }

  /** Line `i` repeats no earlier target and no earlier authorization. */
  ghost predicate NewAt(lines: seq<Line>, i: nat)
    requires i < |lines|
  {
    forall k :: 0 <= k < i ==>
      && (lines[k].EntryLine? && lines[i].EntryLine? ==> lines[k].entry.target != lines[i].entry.target)
      && (lines[k].AuthorizationLine? && lines[i].AuthorizationLine? ==>
            lines[k].authorization.id != lines[i].authorization.id)
  }

  /** Some line authorises the deletion of entry `e`, and safely. */
  ghost predicate SafelyCovered(lines: seq<Line>, e: Entry, policy: RetentionPolicy) {
    exists j :: 0 <= j < |lines| && lines[j].AuthorizationLine?
                && SafelyDeleted(e, e.target, lines[j].authorization, policy)
  }

  /** An authorization line names exactly the targets that entry lines mark under its id. */
  ghost predicate NamesMarked(lines: seq<Line>, a: Authorization) {
    forall t :: t in a.targets <==> exists i: nat :: MarksAt(lines, i, a.id, t)
  }

  /** What an index must be, line by line. */
  ghost predicate SoundLines(lines: seq<Line>, policy: RetentionPolicy) {
    && lines != [] && lines[0].HeaderLine? && lines[0].header.shapeValid && lines[0].header.policyId == policy.id
    && forall i :: 0 <= i < |lines| ==>
         && NewAt(lines, i)
         && match lines[i]
            case HeaderLine(_) => i == 0
            case UnknownLine => false
            case EntryLine(e) =>
              SoundEntry(e, policy) && (e.disposition == DeleteAuthorized ==> SafelyCovered(lines, e, policy))
            case AuthorizationLine(a) =>
              SoundAuthorization(a, lines[0].header) && NamesMarked(lines, a) && !lines[0].header.example
  }

  lemma {:induction false} EntriesAreLines(lines: seq<Line>)
    ensures forall e :: e in EntriesIn(lines) <==> EntryLine(e) in lines
    ensures forall a :: a in AuthorizationsIn(lines) <==> AuthorizationLine(a) in lines
  {
    if lines != [] {
      var init, last := lines[..|lines| - 1], lines[|lines| - 1];
      EntriesAreLines(init);
      assert forall x :: x in lines <==> x in init || x == last;
    }
  }

  lemma {:induction false} DistinctLines(lines: seq<Line>)
    ensures DistinctEntries(EntriesIn(lines)) && DistinctIds(AuthorizationsIn(lines))
       <==> forall i :: 0 <= i < |lines| ==> NewAt(lines, i)
  {
    hide DistinctEntries, DistinctIds;
    if lines == [] {
      NothingRepeats();
    } else {
      var init, last := lines[..|lines| - 1], lines[|lines| - 1];
      DistinctLines(init);
      EntriesAreLines(init);
      forall i | 0 <= i < |init| ensures NewAt(lines, i) <==> NewAt(init, i) {
        NewAtPrefix(lines, i);
      }
      hide NewAt;
      assert lines == init + [last];
      assert EntriesIn(init) + [] == EntriesIn(init) && AuthorizationsIn(init) + [] == AuthorizationsIn(init);
      assert (forall i :: 0 <= i < |lines| ==> NewAt(lines, i))
        <==> (forall i :: 0 <= i < |init| ==> NewAt(init, i)) && NewAt(lines, |init|);
      if last.EntryLine? {
        assert last == EntryLine(last.entry);
        DistinctSnoc(EntriesIn(init), last.entry, init);
      } else if last.AuthorizationLine? {
        assert last == AuthorizationLine(last.authorization);
        DistinctIdsSnoc(AuthorizationsIn(init), last.authorization, init);
      } else {
        OtherLineIsNew(lines);
      }
    }
  }

  lemma NewAtPrefix(lines: seq<Line>, i: nat)
    requires lines != [] && i < |lines| - 1
    ensures NewAt(lines, i) <==> NewAt(lines[..|lines| - 1], i)
  {
    var init := lines[..|lines| - 1];
    assert forall k :: 0 <= k <= i ==> lines[k] == init[k];
  }

  lemma OtherLineIsNew(lines: seq<Line>)
    requires lines != [] && !lines[|lines| - 1].EntryLine? && !lines[|lines| - 1].AuthorizationLine?
    ensures NewAt(lines, |lines| - 1)
  {
  }

  lemma NothingRepeats()
    ensures DistinctEntries([]) && DistinctIds([])
  {
  }

  lemma DistinctSnoc(entries: seq<Entry>, e: Entry, init: seq<Line>)
    requires forall x :: x in entries <==> EntryLine(x) in init
    ensures DistinctEntries(entries + [e]) <==> DistinctEntries(entries) && NewAt(init + [EntryLine(e)], |init|)
  {
    var longer := entries + [e];
    if DistinctEntries(longer) {
      forall i, j | 0 <= i < j < |entries| ensures entries[i].target != entries[j].target {
        assert longer[i].target != longer[j].target;
      }
      forall k | 0 <= k < |init| && init[k].EntryLine? ensures init[k].entry.target != e.target {
        assert init[k].entry in entries;
        var i :| 0 <= i < |entries| && entries[i] == init[k].entry;
        assert longer[i].target != longer[|entries|].target;
      }
    }
    if NewAt(init + [EntryLine(e)], |init|) {
      forall i | 0 <= i < |entries| ensures entries[i].target != e.target {
        assert EntryLine(entries[i]) in init;
        var k :| 0 <= k < |init| && init[k] == EntryLine(entries[i]);
        assert (init + [EntryLine(e)])[k] == init[k];
      }
    }
  }

  lemma DistinctIdsSnoc(authorizations: seq<Authorization>, a: Authorization, init: seq<Line>)
    requires forall x :: x in authorizations <==> AuthorizationLine(x) in init
    ensures DistinctIds(authorizations + [a]) <==>
      DistinctIds(authorizations) && NewAt(init + [AuthorizationLine(a)], |init|)
  {
    var longer := authorizations + [a];
    if DistinctIds(longer) {
      forall i, j | 0 <= i < j < |authorizations| ensures authorizations[i].id != authorizations[j].id {
        assert longer[i].id != longer[j].id;
      }
      forall k | 0 <= k < |init| && init[k].AuthorizationLine? ensures init[k].authorization.id != a.id {
        assert init[k].authorization in authorizations;
        var i :| 0 <= i < |authorizations| && authorizations[i] == init[k].authorization;
        assert longer[i].id != longer[|authorizations|].id;
      }
    }
    if NewAt(init + [AuthorizationLine(a)], |init|) {
      forall i | 0 <= i < |authorizations| ensures authorizations[i].id != a.id {
        assert AuthorizationLine(authorizations[i]) in init;
        var k :| 0 <= k < |init| && init[k] == AuthorizationLine(authorizations[i]);
        assert (init + [AuthorizationLine(a)])[k] == init[k];
      }
    }
  }

  lemma MarkedTargets(lines: seq<Line>, id: string)
    ensures forall t :: t in CitingTargets(EntriesIn(lines), id) <==> exists i: nat :: MarksAt(lines, i, id, t)
  {
    EntriesAreLines(lines);
    var entries := EntriesIn(lines);
    forall t | t in CitingTargets(entries, id) ensures exists i: nat :: MarksAt(lines, i, id, t) {
      var i :| 0 <= i < |entries| && Cites(entries[i], id) && entries[i].target == t;
      assert EntryLine(entries[i]) in lines;
      var k :| 0 <= k < |lines| && lines[k] == EntryLine(entries[i]);
      assert MarksAt(lines, k, id, t);
    }
    forall t | exists i: nat :: MarksAt(lines, i, id, t) ensures t in CitingTargets(entries, id) {
      var i: nat :| MarksAt(lines, i, id, t);
      assert lines[i].entry in entries;
      var k :| 0 <= k < |entries| && entries[k] == lines[i].entry;
      assert Cites(entries[k], id);
    }
  }

  lemma TargetSetMembers(a: Authorization)
    ensures forall t :: t in TargetSet(a) <==> t in a.targets
  {
  }

  lemma HeaderLines(lines: seq<Line>, policy: RetentionPolicy)
    requires lines != [] && lines[0].HeaderLine?
    ensures HeaderFirst(lines) && KnownLines(lines) && ValidHeader(lines[0].header, policy) <==>
      && lines[0].header.shapeValid && lines[0].header.policyId == policy.id
      && forall i :: 0 <= i < |lines| ==> (lines[i].HeaderLine? ==> i == 0) && !lines[i].UnknownLine?
  {
  }

  lemma EachEntry(lines: seq<Line>, policy: RetentionPolicy)
    ensures (forall i :: 0 <= i < |EntriesIn(lines)| ==> ValidEntry(EntriesIn(lines)[i], policy)) <==>
      forall i :: 0 <= i < |lines| && lines[i].EntryLine? ==> SoundEntry(lines[i].entry, policy)
  {
    hide ValidEntry, SoundEntry;
    EntriesAreLines(lines);
    var entries := EntriesIn(lines);
    forall e ensures ValidEntry(e, policy) <==> SoundEntry(e, policy) {
      SoundEntryExactly(e, policy);
    }
    forall i | 0 <= i < |entries| ensures EntryLine(entries[i]) in lines {
    }
    forall i | 0 <= i < |lines| && lines[i].EntryLine? ensures lines[i].entry in entries {
      assert EntryLine(lines[i].entry) in lines;
    }
  }

  lemma EachAuthorization(lines: seq<Line>, header: Header)
    ensures (forall j :: 0 <= j < |AuthorizationsIn(lines)| ==> ValidAuthorization(AuthorizationsIn(lines)[j], header))
      <==> forall i :: 0 <= i < |lines| && lines[i].AuthorizationLine? ==>
             SoundAuthorization(lines[i].authorization, header)
    ensures (header.example ==> AuthorizationsIn(lines) == [])
      <==> forall i :: 0 <= i < |lines| && lines[i].AuthorizationLine? ==> !header.example
  {
    hide ValidAuthorization, SoundAuthorization;
    EntriesAreLines(lines);
    var authorizations := AuthorizationsIn(lines);
    forall a ensures ValidAuthorization(a, header) <==> SoundAuthorization(a, header) {
      SoundAuthorizationExactly(a, header);
    }
    forall i | 0 <= i < |authorizations| ensures AuthorizationLine(authorizations[i]) in lines {
      assert authorizations[i] in authorizations;
    }
    forall i | 0 <= i < |lines| && lines[i].AuthorizationLine? ensures lines[i].authorization in authorizations {
      assert AuthorizationLine(lines[i].authorization) in lines;
    }
    if authorizations != [] {
      assert AuthorizationLine(authorizations[0]) in lines;
    }
  }

  lemma SoundEntryExactly(e: Entry, policy: RetentionPolicy)
    ensures ValidEntry(e, policy) <==> SoundEntry(e, policy)
  {
  }

  lemma SoundAuthorizationExactly(a: Authorization, header: Header)
    ensures ValidAuthorization(a, header) <==> SoundAuthorization(a, header)
  {
  }

  lemma EachDeletion(lines: seq<Line>, header: Header, policy: RetentionPolicy)
    requires forall i :: 0 <= i < |EntriesIn(lines)| ==> ValidEntry(EntriesIn(lines)[i], policy)
    ensures DeletionsBacked(Index(header, EntriesIn(lines), AuthorizationsIn(lines)), policy) <==>
      forall i :: 0 <= i < |lines| && lines[i].EntryLine? && lines[i].entry.disposition == DeleteAuthorized ==>
        SafelyCovered(lines, lines[i].entry, policy)
  {
    hide ValidEntry, SafelyDeleted, Authorises, EntriesIn, AuthorizationsIn;
    var index := Index(header, EntriesIn(lines), AuthorizationsIn(lines));
    EntriesAreLines(lines);
    forall e, a {:trigger Authorises(a, e, policy)} {:trigger SafelyDeleted(e, e.target, a, policy)}
      | e in index.entries && e.disposition == DeleteAuthorized
      ensures Authorises(a, e, policy) <==> SafelyDeleted(e, e.target, a, policy)
    {
      assert ValidEntry(e, policy);
      SafeExactly(e, a, policy);
    }
    forall e | e in index.entries && e.disposition == DeleteAuthorized
      ensures SafelyCovered(lines, e, policy) <==>
        exists j :: 0 <= j < |index.authorizations| && Authorises(index.authorizations[j], e, policy)
    {
      CoveredExactly(lines, e, index.authorizations, policy);
    }
    forall i | 0 <= i < |lines| && lines[i].EntryLine? ensures lines[i].entry in index.entries {
      assert EntryLine(lines[i].entry) in lines;
    }
    forall i | 0 <= i < |index.entries| ensures EntryLine(index.entries[i]) in lines {
      assert index.entries[i] in index.entries;
    }
  }

  lemma SafeExactly(e: Entry, a: Authorization, policy: RetentionPolicy)
    requires ValidEntry(e, policy) && e.disposition == DeleteAuthorized
    ensures Authorises(a, e, policy) <==> SafelyDeleted(e, e.target, a, policy)
  {
  }

  lemma CoveredExactly(lines: seq<Line>, e: Entry, authorizations: seq<Authorization>, policy: RetentionPolicy)
    requires forall a :: a in authorizations <==> AuthorizationLine(a) in lines
    requires forall a :: Authorises(a, e, policy) <==> SafelyDeleted(e, e.target, a, policy)
    ensures SafelyCovered(lines, e, policy) <==>
      exists j :: 0 <= j < |authorizations| && Authorises(authorizations[j], e, policy)
  {
    hide SafelyDeleted, Authorises;
    if SafelyCovered(lines, e, policy) {
      var j :| 0 <= j < |lines| && lines[j].AuthorizationLine?
               && SafelyDeleted(e, e.target, lines[j].authorization, policy);
      assert AuthorizationLine(lines[j].authorization) in lines;
      assert lines[j].authorization in authorizations;
    }
    if exists j :: 0 <= j < |authorizations| && Authorises(authorizations[j], e, policy) {
      var j :| 0 <= j < |authorizations| && Authorises(authorizations[j], e, policy);
      assert AuthorizationLine(authorizations[j]) in lines;
    }
  }

  lemma EachTargetSet(lines: seq<Line>, header: Header)
    ensures AuthorizationsExact(Index(header, EntriesIn(lines), AuthorizationsIn(lines))) <==>
      forall i :: 0 <= i < |lines| && lines[i].AuthorizationLine? ==> NamesMarked(lines, lines[i].authorization)
  {
    hide EntriesIn, AuthorizationsIn, NamesMarked, CitingTargets, TargetSet;
    EntriesAreLines(lines);
    var authorizations := AuthorizationsIn(lines);
    forall a ensures NamesMarked(lines, a) <==> TargetSet(a) == CitingTargets(EntriesIn(lines), a.id) {
      NamesExactly(lines, a);
    }
    forall i | 0 <= i < |lines| && lines[i].AuthorizationLine? ensures lines[i].authorization in authorizations {
      assert AuthorizationLine(lines[i].authorization) in lines;
    }
    forall i | 0 <= i < |authorizations| ensures AuthorizationLine(authorizations[i]) in lines {
      assert authorizations[i] in authorizations;
    }
  }

  lemma NamesExactly(lines: seq<Line>, a: Authorization)
    ensures NamesMarked(lines, a) <==> TargetSet(a) == CitingTargets(EntriesIn(lines), a.id)
  {
    hide CitingTargets, TargetSet, MarksAt;
    MarkedTargets(lines, a.id);
    TargetSetMembers(a);
  }

  /** The validator accepts exactly the sound indexes. */
  lemma AcceptableExactly(lines: seq<Line>, policy: RetentionPolicy)
    ensures Acceptable(lines, policy) <==> SoundLines(lines, policy)
  {
    hide ValidEntry, ValidAuthorization, SoundEntry, SoundAuthorization, EntriesIn, AuthorizationsIn, NewAt,
         DistinctEntries, DistinctIds, NamesMarked, SafelyCovered, AuthorizationsExact, DeletionsBacked, KnownLines,
         ValidHeader;
    if lines != [] && lines[0].HeaderLine? {
      HeaderLines(lines, policy);
      DistinctLines(lines);
      EachEntry(lines, policy);
      EachAuthorization(lines, lines[0].header);
      EachTargetSet(lines, lines[0].header);
      if forall i :: 0 <= i < |EntriesIn(lines)| ==> ValidEntry(EntriesIn(lines)[i], policy) {
        EachDeletion(lines, lines[0].header, policy);
      }
    }
  }
}
