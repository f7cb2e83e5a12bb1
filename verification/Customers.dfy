/**
  Finding or creating a customer by phone number or external id, by many transactions at once.

  The two lookups are statements of their own and see committed rows and the transaction's own; the
  insert meets a unique index on (tenant, phone), waits while another transaction's insert of the
  same pair is undecided, and after a violation the lookup by number is repeated.
 */
module Customers {
  import opened Results
  import opened Phone

  type Worker = nat
  type TenantId = nat
  type CustomerId = nat

  /** `writer` is the transaction that has not committed the row yet. */
  datatype Customer = Customer(tenant: TenantId, phone: Option<string>, externalId: Option<string>, writer: Option<Worker>)

  datatype Call = Call(tenant: TenantId, phone: Option<string>, externalId: Option<string>)

  /** What one call gave its caller: a customer stored under the call's number or, if not, one found by external id. */
  datatype Answer = Answer(call: Call, id: CustomerId, byNumber: bool)

  datatype Pc =
    | Idle
    | Asked(call: Call, found: Option<CustomerId>)   // looked up the number, not yet the external id
    | Missed(call: Call)       // looked up both and found nothing
    | Conflicted(call: Call)   // the insert violated the index

  datatype LookupError = AmbiguousExternalId | IdentityConflict

  /** `open` holds the answers of transactions still running, `kept` those of committed ones. */
  datatype System = System(
    rows: map<CustomerId, Customer>,
    pcs: map<Worker, Pc>,
    open: map<Worker, set<Answer>>,
    kept: set<Answer>)

  datatype Step =
    | LookupNumber(w: Worker, call: Call, found: Option<CustomerId>)
    | LookupExternal(w: Worker, known: Option<CustomerId>)
    | Insert(w: Worker, id: CustomerId)
    | LookAgain(w: Worker, found: Option<CustomerId>)
    | Commit(w: Worker)
    | Rollback(w: Worker)

  /** The number a customer is stored under: the canonical one if there is one. */
  function Key(cc: CharClasses, phone: string): string {
    var number := Normalize(cc, Some(phone));
    if number.Ok? then number.value else phone
  }

  /** The unique index leaves empty numbers alone. */
  function StoredAs(cc: CharClasses, phone: Option<string>): Option<string> {
    if phone.None? || phone.value == "" then phone else Some(Key(cc, phone.value))
  }

  predicate Indexed(phone: Option<string>) {
    phone.Some? && phone.value != ""
  }

  /** The external id defaults to the number. */
  function StoredExternal(cc: CharClasses, call: Call): Option<string> {
    if Indexed(call.externalId) then call.externalId else StoredAs(cc, call.phone)
  }

  function PcOf(s: System, w: Worker): Pc {
    if w in s.pcs then s.pcs[w] else Idle
  }

  function OpenOf(s: System, w: Worker): set<Answer> {
    if w in s.open then s.open[w] else {}
  }

  predicate Visible(s: System, w: Worker, id: CustomerId) {
    id in s.rows && s.rows[id].writer in {None, Some(w)}
  }

  /** The row matches as stored or once more normalised. */
  predicate Matches(cc: CharClasses, row: Customer, tenant: TenantId, key: string) {
    row.tenant == tenant && row.phone in {Some(Key(cc, key)), Some(key)}
  }

  /** `found` is a row the query may return. */
  predicate QueryResult(cc: CharClasses, s: System, w: Worker, tenant: TenantId, key: string, found: Option<CustomerId>) {
    if found.Some? then Visible(s, w, found.value) && Matches(cc, s.rows[found.value], tenant, key)
    else forall id :: id in s.rows && Visible(s, w, id) ==> !Matches(cc, s.rows[id], tenant, key)
  }

  /** The rows a lookup by external id returns. */
  function ByExternalId(s: System, w: Worker, call: Call): set<CustomerId> {
    if !Indexed(call.externalId) then {}
    else
      set id | id in s.rows && Visible(s, w, id) && s.rows[id].tenant == call.tenant && s.rows[id].externalId == call.externalId
  }

  /** `known` is the one row with the external id; None if there is no such row, or more than one. */
  predicate ExternalResult(s: System, w: Worker, call: Call, known: Option<CustomerId>) {
    if known.Some? then ByExternalId(s, w, call) == {known.value} else |ByExternalId(s, w, call)| != 1
  }

  datatype Outcome = Raises(error: LookupError) | Gives(id: CustomerId, byNumber: bool) | Misses

  /** A customer stored under the call's number. */
  predicate Bears(cc: CharClasses, row: Customer, call: Call) {
    Indexed(call.phone) && row.phone == StoredAs(cc, call.phone)
  }

  /** What the two lookups together decide, the second being made now. */
  function OutcomeOf(cc: CharClasses, s: System, w: Worker, call: Call,
                     found: Option<CustomerId>, known: Option<CustomerId>): Outcome
    requires ExternalResult(s, w, call, known)
  {
    if known.None? && ByExternalId(s, w, call) != {} then Raises(AmbiguousExternalId)
    else if found.Some? && known.Some? && found != known then Raises(IdentityConflict)
    else if found.Some? then Gives(found.value, true)
    else if known.Some? then
      assert known.value in ByExternalId(s, w, call);
      Gives(known.value, Bears(cc, s.rows[known.value], call))
    else Misses
  }

  predicate Holds(row: Customer, tenant: TenantId, key: Option<string>) {
    row.tenant == tenant && row.phone == key
  }

  /** Somebody else's undecided insert of the same number: this insert has to wait. */
  predicate MustWait(s: System, w: Worker, tenant: TenantId, key: Option<string>) {
    Indexed(key) && exists id :: id in s.rows && Holds(s.rows[id], tenant, key) && !Visible(s, w, id)
  }

  predicate Violates(s: System, w: Worker, tenant: TenantId, key: Option<string>) {
    Indexed(key) && exists id :: id in s.rows && Holds(s.rows[id], tenant, key) && Visible(s, w, id)
  }

  /** The row a call inserts. */
  function NewRow(cc: CharClasses, call: Call, w: Worker): Customer {
    Customer(call.tenant, StoredAs(cc, call.phone), StoredExternal(cc, call), Some(w))
  }

  /** A new customer has the canonical number if the given one normalises, and the external id given or else that number. */
  lemma NewCustomerTerms(cc: CharClasses, call: Call, w: Worker)
    ensures var row := NewRow(cc, call, w);
            && row.tenant == call.tenant && row.writer == Some(w)
            && (call.phone in {None, Some("")} ==> row.phone == call.phone)
            && (call.phone !in {None, Some("")} ==>
                  row.phone == (if Normalize(cc, call.phone).Ok? then Some(Normalize(cc, call.phone).value) else call.phone))
            && row.externalId == (if call.externalId in {None, Some("")} then row.phone else call.externalId)
  {
  }

  predicate Enabled(cc: CharClasses, s: System, step: Step) {
    var pc := PcOf(s, step.w);
    match step
    case LookupNumber(w, call, found) =>
      && pc.Idle?
      && (if Indexed(call.phone) then QueryResult(cc, s, w, call.tenant, Key(cc, call.phone.value), found) else found.None?)
    case LookupExternal(w, known) => pc.Asked? && ExternalResult(s, w, pc.call, known)
    case Insert(w, id) => pc.Missed? && id !in s.rows && !MustWait(s, w, pc.call.tenant, StoredAs(cc, pc.call.phone))
    case LookAgain(w, found) =>
      pc.Conflicted? && Indexed(pc.call.phone) && QueryResult(cc, s, w, pc.call.tenant, Key(cc, pc.call.phone.value), found)
    case Commit(w) => pc.Idle?
    case Rollback(w) => true
  }

  /** The system with `w` at another place in its call. */
  function At(s: System, w: Worker, pc: Pc): System {
    s.(pcs := s.pcs[w := pc])
  }

  function Answered(s: System, w: Worker, answer: Answer): System {
    At(s, w, Idle).(open := s.open[w := OpenOf(s, w) + {answer}])
  }

  function Concluded(s: System, w: Worker, call: Call, outcome: Outcome): System {
    match outcome
    case Raises(_) => At(s, w, Idle)
    case Gives(id, byNumber) => Answered(s, w, Answer(call, id, byNumber))
    case Misses => At(s, w, Missed(call))
  }

  function Apply(cc: CharClasses, s: System, step: Step): System
    requires Enabled(cc, s, step)
  {
    var pc := PcOf(s, step.w);
    match step
    case LookupNumber(w, call, found) => At(s, w, Asked(call, found))
    case LookupExternal(w, known) => Concluded(s, w, pc.call, OutcomeOf(cc, s, w, pc.call, pc.found, known))
    case Insert(w, id) =>
      if Violates(s, w, pc.call.tenant, StoredAs(cc, pc.call.phone)) then At(s, w, Conflicted(pc.call))
      else Answered(s.(rows := s.rows[id := NewRow(cc, pc.call, w)]), w, Answer(pc.call, id, true))
    case LookAgain(w, found) =>
      if found.Some? then Answered(s, w, Answer(pc.call, found.value, true)) else At(s, w, Idle)
    case Commit(w) =>
      s.(rows := map id | id in s.rows :: if s.rows[id].writer == Some(w) then s.rows[id].(writer := None) else s.rows[id],
         open := s.open - {w},
         kept := s.kept + OpenOf(s, w))
    case Rollback(w) =>
      s.(rows := map id | id in s.rows && s.rows[id].writer != Some(w) :: s.rows[id],
         pcs := s.pcs[w := Idle],
         open := s.open - {w})
  }

  predicate ValidRun(cc: CharClasses, s: System, steps: seq<Step>)
    decreases |steps|
  {
    steps == [] || (Enabled(cc, s, steps[0]) && ValidRun(cc, Apply(cc, s, steps[0]), steps[1..]))
  }

  function Run(cc: CharClasses, s: System, steps: seq<Step>): System
    requires ValidRun(cc, s, steps)
    decreases |steps|
  {
    if steps == [] then s else Run(cc, Apply(cc, s, steps[0]), steps[1..])
  }

  // ----- The invariant -----

  predicate RowsInv(cc: CharClasses, s: System) {
    && (forall id :: id in s.rows && Indexed(s.rows[id].phone) ==> StoredAs(cc, s.rows[id].phone) == s.rows[id].phone)
    && (forall i, j ::
          i in s.rows && j in s.rows && Indexed(s.rows[i].phone) && Holds(s.rows[j], s.rows[i].tenant, s.rows[i].phone) ==>
            i == j)
  }

  /** The answer's row is there, and `w` (or, for None, everyone) may see it for good. */
  predicate AnswerInv(cc: CharClasses, s: System, w: Option<Worker>, answer: Answer) {
    && answer.id in s.rows
    && s.rows[answer.id].tenant == answer.call.tenant
    && (answer.byNumber ==> s.rows[answer.id].phone == StoredAs(cc, answer.call.phone))
    && (!answer.byNumber ==>
          && s.rows[answer.id].externalId == answer.call.externalId
          && !Bears(cc, s.rows[answer.id], answer.call))
    && s.rows[answer.id].writer in {None, w}
  }

  predicate OpenInv(cc: CharClasses, s: System) {
    forall w, answer :: w in s.open && answer in s.open[w] ==> AnswerInv(cc, s, Some(w), answer)
  }

  predicate KeptInv(cc: CharClasses, s: System) {
    forall answer :: answer in s.kept ==> AnswerInv(cc, s, None, answer)
  }

  predicate IsRival(cc: CharClasses, s: System, w: Worker, call: Call, id: CustomerId) {
    id in s.rows && Visible(s, w, id) && Holds(s.rows[id], call.tenant, StoredAs(cc, call.phone))
  }

  predicate SeesRival(cc: CharClasses, s: System, w: Worker, call: Call) {
    exists id :: id in s.rows && IsRival(cc, s, w, call, id)
  }

  /** A row found by number, or met by an insert, is one this worker can see, and it stays. */
  predicate PlaceInv(cc: CharClasses, s: System, w: Worker, pc: Pc) {
    match pc
    case Asked(call, found) => found.Some? ==> Indexed(call.phone) && IsRival(cc, s, w, call, found.value)
    case Conflicted(call) => Indexed(call.phone) && SeesRival(cc, s, w, call)
    case _ => true
  }

  predicate PlacesInv(cc: CharClasses, s: System) {
    forall w :: w in s.pcs ==> PlaceInv(cc, s, w, s.pcs[w])
  }

  predicate Inv(cc: CharClasses, s: System) {
    RowsInv(cc, s) && OpenInv(cc, s) && KeptInv(cc, s) && PlacesInv(cc, s)
  }

  /** Looking up the stored number normalises it a second time, to no effect. */
  lemma KeyIsIdempotent(cc: CharClasses, phone: string)
    requires Sound(cc)
    ensures Key(cc, Key(cc, phone)) == Key(cc, phone)
    ensures phone != "" ==> Key(cc, phone) != ""
  {
    if Normalize(cc, Some(phone)).Ok? {
      NormalizeIsIdempotent(cc, Some(phone));
    }
  }

  /** Every row `w` could see it still sees, unchanged but for its commit. */
  predicate KeepsSight(s: System, s': System, w: Worker) {
    forall id :: id in s.rows && Visible(s, w, id) ==>
      Visible(s', w, id) && s'.rows[id].(writer := None) == s.rows[id].(writer := None)
  }

  lemma PlaceStays(cc: CharClasses, s: System, s': System, w: Worker, pc: Pc)
    requires PlaceInv(cc, s, w, pc) && KeepsSight(s, s', w)
    ensures PlaceInv(cc, s', w, pc)
  {
    match pc
    case Asked(call, found) =>
    case Conflicted(call) =>
      var id :| id in s.rows && IsRival(cc, s, w, call, id);
      assert IsRival(cc, s', w, call, id);
    case _ =>
  }

  /** A step that takes no row out of anyone's sight moves at most one worker. */
  lemma PlacesStay(cc: CharClasses, s: System, s': System)
    requires PlacesInv(cc, s)
    requires forall v :: v in s'.pcs ==>
               PlaceInv(cc, s', v, s'.pcs[v]) || (v in s.pcs && s.pcs[v] == s'.pcs[v] && KeepsSight(s, s', v))
    ensures PlacesInv(cc, s')
  {
    forall v | v in s'.pcs ensures PlaceInv(cc, s', v, s'.pcs[v]) {
      if !PlaceInv(cc, s', v, s'.pcs[v]) {
        PlaceStays(cc, s, s', v, s'.pcs[v]);
      }
    }
  }

  lemma AnswerKeepsInv(cc: CharClasses, s: System, w: Worker, answer: Answer)
    requires Inv(cc, s) && AnswerInv(cc, s, Some(w), answer)
    ensures Inv(cc, Answered(s, w, answer))
  {
    PlacesStay(cc, s, Answered(s, w, answer));
  }

  lemma PlaceKeepsInv(cc: CharClasses, s: System, w: Worker, pc: Pc)
    requires Inv(cc, s) && PlaceInv(cc, s, w, pc)
    ensures Inv(cc, At(s, w, pc))
  {
    PlaceStays(cc, s, At(s, w, pc), w, pc);
    PlacesStay(cc, s, At(s, w, pc));
  }

  /** A row that neither waits nor violates is the only one under its number. */
  lemma NewRowKeepsInv(cc: CharClasses, s: System, w: Worker, id: CustomerId, call: Call)
    requires Inv(cc, s) && Sound(cc) && id !in s.rows
    requires !MustWait(s, w, call.tenant, StoredAs(cc, call.phone)) && !Violates(s, w, call.tenant, StoredAs(cc, call.phone))
    ensures Inv(cc, s.(rows := s.rows[id := NewRow(cc, call, w)]))
  {
    var key := StoredAs(cc, call.phone);
    if call.phone.Some? {
      KeyIsIdempotent(cc, call.phone.value);
    }
    assert Indexed(key) ==> forall i :: i in s.rows ==> !Holds(s.rows[i], call.tenant, key);
    PlacesStay(cc, s, s.(rows := s.rows[id := NewRow(cc, call, w)]));
  }

  lemma CommitKeepsInv(cc: CharClasses, s: System, w: Worker)
    requires Inv(cc, s) && Enabled(cc, s, Commit(w))
    ensures Inv(cc, Apply(cc, s, Commit(w)))
  {
    PlacesStay(cc, s, Apply(cc, s, Commit(w)));
  }

  lemma RollbackKeepsInv(cc: CharClasses, s: System, w: Worker)
    requires Inv(cc, s)
    ensures Inv(cc, Apply(cc, s, Rollback(w)))
  {
    PlacesStay(cc, s, Apply(cc, s, Rollback(w)));
  }

  lemma LookupNumberKeepsInv(cc: CharClasses, s: System, w: Worker, call: Call, found: Option<CustomerId>)
    requires Sound(cc) && Inv(cc, s) && Enabled(cc, s, LookupNumber(w, call, found))
    ensures Inv(cc, Apply(cc, s, LookupNumber(w, call, found)))
  {
    if found.Some? {
      KeyIsIdempotent(cc, call.phone.value);
    }
    PlaceKeepsInv(cc, s, w, Asked(call, found));
  }

  lemma LookupExternalKeepsInv(cc: CharClasses, s: System, w: Worker, known: Option<CustomerId>)
    requires Inv(cc, s) && Enabled(cc, s, LookupExternal(w, known))
    ensures Inv(cc, Apply(cc, s, LookupExternal(w, known)))
  {
    var call, found := s.pcs[w].call, s.pcs[w].found;
    assert PlaceInv(cc, s, w, s.pcs[w]);
    match OutcomeOf(cc, s, w, call, found, known)
    case Raises(_) => PlaceKeepsInv(cc, s, w, Idle);
    case Gives(id, byNumber) =>
      assert known.Some? ==> known.value in ByExternalId(s, w, call);
      AnswerKeepsInv(cc, s, w, Answer(call, id, byNumber));
    case Misses => PlaceKeepsInv(cc, s, w, Missed(call));
  }

  lemma InsertKeepsInv(cc: CharClasses, s: System, w: Worker, id: CustomerId)
    requires Sound(cc) && Inv(cc, s) && Enabled(cc, s, Insert(w, id))
    ensures Inv(cc, Apply(cc, s, Insert(w, id)))
  {
    var call := PcOf(s, w).call;
    var key := StoredAs(cc, call.phone);
    if Violates(s, w, call.tenant, key) {
      var rival :| rival in s.rows && Holds(s.rows[rival], call.tenant, key) && Visible(s, w, rival);
      assert IsRival(cc, s, w, call, rival);
      PlaceKeepsInv(cc, s, w, Conflicted(call));
    } else {
      NewRowKeepsInv(cc, s, w, id, call);
      AnswerKeepsInv(cc, s.(rows := s.rows[id := NewRow(cc, call, w)]), w, Answer(call, id, true));
    }
  }

  lemma LookAgainKeepsInv(cc: CharClasses, s: System, w: Worker, found: Option<CustomerId>)
    requires Sound(cc) && Inv(cc, s) && Enabled(cc, s, LookAgain(w, found))
    ensures Inv(cc, Apply(cc, s, LookAgain(w, found)))
  {
    if found.Some? {
      KeyIsIdempotent(cc, PcOf(s, w).call.phone.value);
      AnswerKeepsInv(cc, s, w, Answer(PcOf(s, w).call, found.value, true));
    } else {
      PlaceKeepsInv(cc, s, w, Idle);
    }
  }

  lemma StepKeepsInv(cc: CharClasses, s: System, step: Step)
    requires Sound(cc) && Inv(cc, s) && Enabled(cc, s, step)
    ensures Inv(cc, Apply(cc, s, step))
  {
    match step
    case LookupNumber(w, call, found) => LookupNumberKeepsInv(cc, s, w, call, found);
    case LookupExternal(w, known) => LookupExternalKeepsInv(cc, s, w, known);
    case Insert(w, id) => InsertKeepsInv(cc, s, w, id);
    case LookAgain(w, found) => LookAgainKeepsInv(cc, s, w, found);
    case Commit(w) => CommitKeepsInv(cc, s, w);
    case Rollback(w) => RollbackKeepsInv(cc, s, w);
  }

  lemma {:induction false} RunKeepsInv(cc: CharClasses, s: System, steps: seq<Step>)
    requires Sound(cc) && Inv(cc, s) && ValidRun(cc, s, steps)
    ensures Inv(cc, Run(cc, s, steps))
    decreases |steps|
  {
    if steps != [] {
      StepKeepsInv(cc, s, steps[0]);
      RunKeepsInv(cc, Apply(cc, s, steps[0]), steps[1..]);
    }
  }

  // ----- Main results -----

  const NOBODY := System(map[], map[], map[], {})

  /** Over every interleaving, rows whose numbers normalise alike are the same row. */
  lemma OneCustomerPerNumber(cc: CharClasses, steps: seq<Step>, i: CustomerId, j: CustomerId)
    requires Sound(cc) && ValidRun(cc, NOBODY, steps)
    requires i in Run(cc, NOBODY, steps).rows && j in Run(cc, NOBODY, steps).rows
    requires var a, b := Run(cc, NOBODY, steps).rows[i], Run(cc, NOBODY, steps).rows[j];
             a.tenant == b.tenant && Indexed(a.phone) && Indexed(b.phone) && Key(cc, a.phone.value) == Key(cc, b.phone.value)
    ensures i == j
  {
    RunKeepsInv(cc, NOBODY, steps);
  }

  /**
    Two committed calls with numbers that are stored alike, the first of them given the customer stored
    under the number: they were given the same customer if and only if the second was given that one too.
   */
  lemma SameNumberSameCustomerIff(cc: CharClasses, steps: seq<Step>, a: Answer, b: Answer)
    requires Sound(cc) && ValidRun(cc, NOBODY, steps)
    requires a in Run(cc, NOBODY, steps).kept && b in Run(cc, NOBODY, steps).kept
    requires a.call.tenant == b.call.tenant && Indexed(a.call.phone) && Indexed(b.call.phone)
    requires Key(cc, a.call.phone.value) == Key(cc, b.call.phone.value) && a.byNumber
    ensures a.id == b.id <==> b.byNumber
    ensures a.id in Run(cc, NOBODY, steps).rows && Run(cc, NOBODY, steps).rows[a.id].writer.None?
  {
    RunKeepsInv(cc, NOBODY, steps);
    KeyIsIdempotent(cc, a.call.phone.value);
  }

  /** A committed call that was not answered by number was given a customer of its tenant with its external id. */
  lemma OtherwiseTheExternalId(cc: CharClasses, steps: seq<Step>, a: Answer)
    requires Sound(cc) && ValidRun(cc, NOBODY, steps) && a in Run(cc, NOBODY, steps).kept && !a.byNumber
    ensures var rows := Run(cc, NOBODY, steps).rows;
            a.id in rows && rows[a.id].tenant == a.call.tenant && rows[a.id].externalId == a.call.externalId
  {
    RunKeepsInv(cc, NOBODY, steps);
  }

  /** Nobody has been answered by external id, and nobody is asking with one. */
  predicate AllByNumber(s: System) {
    && (forall w :: w in s.pcs && s.pcs[w].Asked? ==> !Indexed(s.pcs[w].call.externalId))
    && (forall a :: a in s.kept ==> a.byNumber)
    && (forall w, a :: w in s.open && a in s.open[w] ==> a.byNumber)
  }

  predicate NumbersOnly(step: Step) {
    step.LookupNumber? ==> !Indexed(step.call.externalId)
  }

  lemma AnswerIsByNumber(s: System, w: Worker, answer: Answer)
    requires AllByNumber(s) && answer.byNumber
    ensures AllByNumber(Answered(s, w, answer))
  {
  }

  lemma LookupIsByNumber(cc: CharClasses, s: System, w: Worker, known: Option<CustomerId>)
    requires AllByNumber(s) && Enabled(cc, s, LookupExternal(w, known))
    ensures AllByNumber(Apply(cc, s, LookupExternal(w, known)))
  {
    var call, found := s.pcs[w].call, s.pcs[w].found;
    assert ByExternalId(s, w, call) == {};
    if found.Some? {
      AnswerIsByNumber(s, w, Answer(call, found.value, true));
    }
  }

  lemma StepIsByNumber(cc: CharClasses, s: System, step: Step)
    requires AllByNumber(s) && Enabled(cc, s, step) && NumbersOnly(step)
    ensures AllByNumber(Apply(cc, s, step))
  {
    match step
    case LookupExternal(w, known) => LookupIsByNumber(cc, s, w, known);
    case Insert(w, id) =>
      var call := PcOf(s, w).call;
      AnswerIsByNumber(s.(rows := s.rows[id := NewRow(cc, call, w)]), w, Answer(call, id, true));
    case LookAgain(w, found) =>
      if found.Some? {
        AnswerIsByNumber(s, w, Answer(PcOf(s, w).call, found.value, true));
      }
    case _ =>
  }

  lemma {:induction false} RunIsByNumber(cc: CharClasses, s: System, steps: seq<Step>)
    requires AllByNumber(s) && ValidRun(cc, s, steps) && forall k :: 0 <= k < |steps| ==> NumbersOnly(steps[k])
    ensures AllByNumber(Run(cc, s, steps))
    decreases |steps|
  {
    if steps != [] {
      StepIsByNumber(cc, s, steps[0]);
      RunIsByNumber(cc, Apply(cc, s, steps[0]), steps[1..]);
    }
  }

  /** Without external ids every call is answered by number. */
  lemma WithoutExternalIds(cc: CharClasses, steps: seq<Step>, a: Answer)
    requires ValidRun(cc, NOBODY, steps) && a in Run(cc, NOBODY, steps).kept
    requires forall k :: 0 <= k < |steps| ==> NumbersOnly(steps[k])
    ensures a.byNumber
  {
    RunIsByNumber(cc, NOBODY, steps);
  }

  /** The lookup after a violation always finds the row, so a call never fails because of a rival. */
  lemma LookAgainFinds(cc: CharClasses, steps: seq<Step>, w: Worker, found: Option<CustomerId>)
    requires Sound(cc) && ValidRun(cc, NOBODY, steps) && Enabled(cc, Run(cc, NOBODY, steps), LookAgain(w, found))
    ensures found.Some?
  {
    RunKeepsInv(cc, NOBODY, steps);
    var s := Run(cc, NOBODY, steps);
    assert s.pcs[w].Conflicted?;
  }

  lemma Prepend(cc: CharClasses, s: System, step: Step, s': System, rest: seq<Step>)
    requires Enabled(cc, s, step) && Apply(cc, s, step) == s' && ValidRun(cc, s', rest)
    ensures ValidRun(cc, s, [step] + rest) && Run(cc, s, [step] + rest) == Run(cc, s', rest)
  {
    assert ([step] + rest)[1..] == rest;
  }

  lemma PlacesMerge(s: System, w: Worker, first: Pc, second: Pc)
    ensures At(At(s, w, first), w, second) == At(s, w, second)
  {
    assert s.pcs[w := first][w := second] == s.pcs[w := second];
  }

  /** Worker 0 asks, and finds no number. */
  function Ask(call: Call, known: Option<CustomerId>): seq<Step> {
    [LookupNumber(0, call, None), LookupExternal(0, known)]
  }

  lemma AskRuns(cc: CharClasses, s: System, call: Call, known: Option<CustomerId>, s': System, rest: seq<Step>)
    requires Enabled(cc, s, LookupNumber(0, call, None))
    requires Enabled(cc, At(s, 0, Asked(call, None)), LookupExternal(0, known))
    requires Apply(cc, At(s, 0, Asked(call, None)), LookupExternal(0, known)) == s' && ValidRun(cc, s', rest)
    ensures ValidRun(cc, s, Ask(call, known) + rest) && Run(cc, s, Ask(call, known) + rest) == Run(cc, s', rest)
  {
    Prepend(cc, At(s, 0, Asked(call, None)), LookupExternal(0, known), s', rest);
    Prepend(cc, s, LookupNumber(0, call, None), At(s, 0, Asked(call, None)), [LookupExternal(0, known)] + rest);
    assert Ask(call, known) + rest == [LookupNumber(0, call, None)] + ([LookupExternal(0, known)] + rest);
  }

  /** Worker 0 asks, finds nothing, inserts and commits. */
  function Create(call: Call, id: CustomerId, rest: seq<Step>): seq<Step> {
    Ask(call, None) + ([Insert(0, id)] + ([Commit(0)] + rest))
  }

  function Created(cc: CharClasses, s: System, call: Call, id: CustomerId): System {
    System(s.rows[id := NewRow(cc, call, 0).(writer := None)], s.pcs[0 := Idle], s.open - {0},
           s.kept + (OpenOf(s, 0) + {Answer(call, id, true)}))
  }

  /** A quiet system in which no row has the number or the external id of the call. */
  predicate IsNew(cc: CharClasses, s: System, call: Call, id: CustomerId) {
    && PcOf(s, 0).Idle?
    && id !in s.rows
    && (forall i :: i in s.rows ==> s.rows[i].writer.None?)
    && (forall i :: i in s.rows ==> s.rows[i].phone != StoredAs(cc, call.phone))
    && (forall i :: i in s.rows && Indexed(call.phone) ==> !Matches(cc, s.rows[i], call.tenant, Key(cc, call.phone.value)))
    && (forall i :: i in s.rows ==> !Indexed(call.externalId) || s.rows[i].externalId != call.externalId)
  }

  lemma AskFindsNothing(cc: CharClasses, s: System, call: Call, id: CustomerId)
    requires IsNew(cc, s, call, id)
    ensures Enabled(cc, s, LookupNumber(0, call, None))
    ensures Enabled(cc, At(s, 0, Asked(call, None)), LookupExternal(0, None))
    ensures Apply(cc, At(s, 0, Asked(call, None)), LookupExternal(0, None)) == At(s, 0, Missed(call))
  {
    assert ByExternalId(At(s, 0, Asked(call, None)), 0, call) == {};
  }

  /** The same with the new row inserted but not committed. */
  function Inserted(cc: CharClasses, s: System, call: Call, id: CustomerId): System {
    Answered(s.(rows := s.rows[id := NewRow(cc, call, 0)]), 0, Answer(call, id, true))
  }

  lemma InsertInserts(cc: CharClasses, s: System, call: Call, id: CustomerId)
    requires IsNew(cc, s, call, id)
    ensures Enabled(cc, At(s, 0, Missed(call)), Insert(0, id))
    ensures Apply(cc, At(s, 0, Missed(call)), Insert(0, id)) == Inserted(cc, s, call, id)
  {
    PlacesMerge(s.(rows := s.rows[id := NewRow(cc, call, 0)]), 0, Missed(call), Idle);
  }

  lemma CommitCreates(cc: CharClasses, s: System, call: Call, id: CustomerId)
    requires IsNew(cc, s, call, id)
    ensures Enabled(cc, Inserted(cc, s, call, id), Commit(0))
    ensures Apply(cc, Inserted(cc, s, call, id), Commit(0)) == Created(cc, s, call, id)
  {
  }

  lemma CreateRuns(cc: CharClasses, s: System, call: Call, id: CustomerId, rest: seq<Step>)
    requires IsNew(cc, s, call, id) && ValidRun(cc, Created(cc, s, call, id), rest)
    ensures ValidRun(cc, s, Create(call, id, rest))
    ensures Run(cc, s, Create(call, id, rest)) == Run(cc, Created(cc, s, call, id), rest)
  {
    CommitCreates(cc, s, call, id);
    Prepend(cc, Inserted(cc, s, call, id), Commit(0), Created(cc, s, call, id), rest);
    InsertInserts(cc, s, call, id);
    Prepend(cc, At(s, 0, Missed(call)), Insert(0, id), Inserted(cc, s, call, id), [Commit(0)] + rest);
    AskFindsNothing(cc, s, call, id);
    AskRuns(cc, s, call, None, At(s, 0, Missed(call)), [Insert(0, id)] + ([Commit(0)] + rest));
  }

  /** A customer with an external id and no number is found by a call that has both; the number is not stored. */
  lemma BothFindsTheExternalId(cc: CharClasses, s: System, t: TenantId, e: string, p: string)
    requires e != "" && p != "" && s == Created(cc, NOBODY, Call(t, None, Some(e)), 0)
    ensures var call := Call(t, Some(p), Some(e));
            && Enabled(cc, s, LookupNumber(0, call, None))
            && Enabled(cc, At(s, 0, Asked(call, None)), LookupExternal(0, Some(0)))
            && Apply(cc, At(s, 0, Asked(call, None)), LookupExternal(0, Some(0))) == Answered(s, 0, Answer(call, 0, false))
  {
    assert ByExternalId(At(s, 0, Asked(Call(t, Some(p), Some(e)), None)), 0, Call(t, Some(p), Some(e))) == {0};
  }

  /**
    A customer found by external id is not given the call's number, so a later call with that number
    alone creates another customer: the same number, two customers.
   */
  lemma ExternalIdHidesTheNumber(cc: CharClasses, t: TenantId, e: string, p: string)
    requires e != "" && p != "" && Key(cc, p) != ""
    ensures var nameless, both, alone := Call(t, None, Some(e)), Call(t, Some(p), Some(e)), Call(t, Some(p), None);
            var steps := Create(nameless, 0, Ask(both, Some(0)) + Create(alone, 1, []));
            && ValidRun(cc, NOBODY, steps)
            && Answer(both, 0, false) in Run(cc, NOBODY, steps).kept
            && Answer(alone, 1, true) in Run(cc, NOBODY, steps).kept
  {
    var nameless, both, alone := Call(t, None, Some(e)), Call(t, Some(p), Some(e)), Call(t, Some(p), None);
    var s1 := Created(cc, NOBODY, nameless, 0);
    var s2 := Answered(s1, 0, Answer(both, 0, false));
    CreateRuns(cc, s2, alone, 1, []);
    BothFindsTheExternalId(cc, s1, t, e, p);
    AskRuns(cc, s1, both, Some(0), s2, Create(alone, 1, []));
    CreateRuns(cc, NOBODY, nameless, 0, Ask(both, Some(0)) + Create(alone, 1, []));
  }

  // ----- The repository call -----

  predicate ByOthers(w: Worker, steps: seq<Step>) {
    forall k :: 0 <= k < |steps| ==> steps[k].w != w
  }

  lemma PlacesCommute(s: System, w: Worker, pc: Pc, v: Worker, place: Pc)
    requires v != w
    ensures At(At(s, w, pc), v, place) == At(At(s, v, place), w, pc)
    ensures PcOf(At(s, v, place), w) == PcOf(s, w) && PcOf(At(s, w, pc), v) == PcOf(s, v)
  {
    assert s.pcs[w := pc][v := place] == s.pcs[v := place][w := pc];
  }

  /** What a worker is given does not depend on another's place. */
  lemma AnswersCommute(s: System, w: Worker, pc: Pc, v: Worker, answer: Answer)
    requires v != w
    ensures Answered(At(s, w, pc), v, answer) == At(Answered(s, v, answer), w, pc)
    ensures PcOf(Answered(s, v, answer), w) == PcOf(s, w) && OpenOf(Answered(s, v, answer), w) == OpenOf(s, w)
  {
    PlacesCommute(s, w, pc, v, Idle);
  }

  lemma SameSight(s: System, w: Worker, pc: Pc, v: Worker, call: Call)
    ensures ByExternalId(At(s, w, pc), v, call) == ByExternalId(s, v, call)
  {
  }

  /** What the others do depends on nobody's place in a call but their own: one lemma a step. */
  lemma LookupIgnoresMyPlace(cc: CharClasses, s: System, step: Step, w: Worker, pc: Pc)
    requires Enabled(cc, s, step) && step.w != w && (step.LookupNumber? || step.LookupExternal?)
    ensures Enabled(cc, At(s, w, pc), step) && Apply(cc, At(s, w, pc), step) == At(Apply(cc, s, step), w, pc)
    ensures PcOf(Apply(cc, s, step), w) == PcOf(s, w) && OpenOf(Apply(cc, s, step), w) == OpenOf(s, w)
  {
    match step
    case LookupNumber(v, call, found) => PlacesCommute(s, w, pc, v, Asked(call, found));
    case LookupExternal(v, known) =>
      var call, found := s.pcs[v].call, s.pcs[v].found;
      SameSight(s, w, pc, v, call);
      match OutcomeOf(cc, s, v, call, found, known)
      case Raises(_) => PlacesCommute(s, w, pc, v, Idle);
      case Gives(id, byNumber) => AnswersCommute(s, w, pc, v, Answer(call, id, byNumber));
      case Misses => PlacesCommute(s, w, pc, v, Missed(call));
  }

  lemma InsertIgnoresMyPlace(cc: CharClasses, s: System, step: Step, w: Worker, pc: Pc)
    requires Enabled(cc, s, step) && step.w != w && (step.Insert? || step.LookAgain?)
    ensures Enabled(cc, At(s, w, pc), step) && Apply(cc, At(s, w, pc), step) == At(Apply(cc, s, step), w, pc)
    ensures PcOf(Apply(cc, s, step), w) == PcOf(s, w) && OpenOf(Apply(cc, s, step), w) == OpenOf(s, w)
  {
    var v, call := step.w, PcOf(s, step.w).call;
    match step
    case Insert(_, id) =>
      PlacesCommute(s, w, pc, v, Conflicted(call));
      AnswersCommute(s.(rows := s.rows[id := NewRow(cc, call, v)]), w, pc, v, Answer(call, id, true));
    case LookAgain(_, found) =>
      PlacesCommute(s, w, pc, v, Idle);
      if found.Some? {
        AnswersCommute(s, w, pc, v, Answer(call, found.value, true));
      }
  }

  lemma StepIgnoresMyPlace(cc: CharClasses, s: System, step: Step, w: Worker, pc: Pc)
    requires Enabled(cc, s, step) && step.w != w
    ensures Enabled(cc, At(s, w, pc), step) && Apply(cc, At(s, w, pc), step) == At(Apply(cc, s, step), w, pc)
    ensures PcOf(Apply(cc, s, step), w) == PcOf(s, w) && OpenOf(Apply(cc, s, step), w) == OpenOf(s, w)
  {
    match step
    case Commit(v) =>
    case Rollback(v) => PlacesCommute(s, w, pc, v, Idle);
    case Insert(_, _) => InsertIgnoresMyPlace(cc, s, step, w, pc);
    case LookAgain(_, _) => InsertIgnoresMyPlace(cc, s, step, w, pc);
    case _ => LookupIgnoresMyPlace(cc, s, step, w, pc);
  }

  lemma {:induction false} OthersIgnoreMyPlace(cc: CharClasses, s: System, steps: seq<Step>, w: Worker, pc: Pc)
    requires ValidRun(cc, s, steps) && ByOthers(w, steps)
    ensures ValidRun(cc, At(s, w, pc), steps) && Run(cc, At(s, w, pc), steps) == At(Run(cc, s, steps), w, pc)
    ensures PcOf(Run(cc, s, steps), w) == PcOf(s, w) && OpenOf(Run(cc, s, steps), w) == OpenOf(s, w)
    decreases |steps|
  {
    if steps != [] {
      StepIgnoresMyPlace(cc, s, steps[0], w, pc);
      OthersIgnoreMyPlace(cc, Apply(cc, s, steps[0]), steps[1..], w, pc);
    }
  }

  /** What the others do between the two lookups (`early`) and before the insert (`late`), which no longer waits then. */
  predicate Interference(cc: CharClasses, s: System, w: Worker, call: Call, early: seq<Step>, late: seq<Step>,
                         id: CustomerId) {
    && ByOthers(w, early) && ByOthers(w, late)
    && ValidRun(cc, s, early)
    && var mid := Run(cc, s, early);
    && ValidRun(cc, mid, late)
    && id !in Run(cc, mid, late).rows
    && !MustWait(Run(cc, mid, late), w, call.tenant, StoredAs(cc, call.phone))
  }

  /** A visible customer stored under the call's number. */
  predicate HasNumber(cc: CharClasses, s: System, w: Worker, call: Call, id: CustomerId) {
    Indexed(call.phone) && IsRival(cc, s, w, call, id)
  }

  predicate SeesNumber(cc: CharClasses, s: System, w: Worker, call: Call) {
    exists id :: id in s.rows && HasNumber(cc, s, w, call, id)
  }

  /** Exactly one visible customer with the call's external id. */
  predicate IsTheOne(s: System, w: Worker, call: Call, id: CustomerId) {
    ByExternalId(s, w, call) == {id}
  }

  /** When the number is looked up it belongs to one customer, and when the external id is, that belongs to another. */
  predicate Contradicts(cc: CharClasses, s: System, later: System, w: Worker, call: Call) {
    exists i, j :: i in s.rows && j in later.rows && HasNumber(cc, s, w, call, i) && IsTheOne(later, w, call, j) && i != j
  }

  /** The number was seen when it was looked up, or the later lookup finds no external id, or one on a customer with the number. */
  predicate FoundUnderNumber(cc: CharClasses, s: System, later: System, w: Worker, call: Call) {
    || SeesNumber(cc, s, w, call)
    || ByExternalId(later, w, call) == {}
    || exists id :: id in later.rows && IsTheOne(later, w, call, id) && Bears(cc, later.rows[id], call)
  }

  /** The lookup by number finds the one customer stored under it, if this worker can see it. */
  lemma FoundIsTheNumber(cc: CharClasses, s: System, w: Worker, call: Call, found: Option<CustomerId>)
    requires Sound(cc) && RowsInv(cc, s) && Enabled(cc, s, LookupNumber(w, call, found))
    ensures found.Some? <==> SeesNumber(cc, s, w, call)
    ensures forall id :: id in s.rows && HasNumber(cc, s, w, call, id) ==> found == Some(id)
    ensures found.Some? ==> HasNumber(cc, s, w, call, found.value)
  {
    if Indexed(call.phone) {
      KeyIsIdempotent(cc, call.phone.value);
      forall id | id in s.rows && HasNumber(cc, s, w, call, id) ensures found == Some(id) {
        assert Matches(cc, s.rows[id], call.tenant, Key(cc, call.phone.value));
      }
    }
  }

  /** Exactly when the two lookups raise, and exactly when what they give is stored under the number. */
  lemma LookupsDecide(cc: CharClasses, s: System, later: System, w: Worker, call: Call,
                      found: Option<CustomerId>, known: Option<CustomerId>)
    requires Sound(cc) && RowsInv(cc, s) && Enabled(cc, s, LookupNumber(w, call, found)) && ExternalResult(later, w, call, known)
    ensures var outcome := OutcomeOf(cc, later, w, call, found, known);
            && (outcome == Raises(AmbiguousExternalId) <==> |ByExternalId(later, w, call)| > 1)
            && (outcome == Raises(IdentityConflict) <==> Contradicts(cc, s, later, w, call))
            && (outcome.Gives? ==> (outcome.byNumber <==> FoundUnderNumber(cc, s, later, w, call)))
            && (outcome.Misses? ==> FoundUnderNumber(cc, s, later, w, call))
  {
    FoundIsTheNumber(cc, s, w, call, found);
    if known.Some? {
      assert known.value in ByExternalId(later, w, call);
      assert IsTheOne(later, w, call, known.value);
    }
    assert forall id :: IsTheOne(later, w, call, id) ==> id in ByExternalId(later, w, call);
  }

  /** With nothing in between, what is given is stored under the number exactly if the number or no external id is seen. */
  lemma NothingInBetween(cc: CharClasses, s: System, w: Worker, call: Call)
    ensures FoundUnderNumber(cc, s, s, w, call) <==> SeesNumber(cc, s, w, call) || ByExternalId(s, w, call) == {}
  {
    forall id | IsTheOne(s, w, call, id) && id in s.rows && Bears(cc, s.rows[id], call) ensures HasNumber(cc, s, w, call, id) {
      assert id in ByExternalId(s, w, call);
    }
  }

  /** Both lookups, with `early` between them. */
  lemma LookupsRun(cc: CharClasses, s: System, w: Worker, call: Call, found: Option<CustomerId>, early: seq<Step>,
                   known: Option<CustomerId>)
    requires Sound(cc) && Inv(cc, s) && PcOf(s, w).Idle? && ByOthers(w, early) && ValidRun(cc, s, early)
    requires Enabled(cc, s, LookupNumber(w, call, found))
    requires ExternalResult(Run(cc, s, early), w, call, known)
    ensures ValidRun(cc, At(s, w, Asked(call, found)), early)
    ensures var mid := Run(cc, s, early);
            var asked := Run(cc, At(s, w, Asked(call, found)), early);
            var outcome := OutcomeOf(cc, mid, w, call, found, known);
            && asked == At(mid, w, Asked(call, found))
            && Enabled(cc, asked, LookupExternal(w, known))
            && Apply(cc, asked, LookupExternal(w, known)) == Concluded(mid, w, call, outcome)
            && Inv(cc, Concluded(mid, w, call, outcome))
  {
    var mid := Run(cc, s, early);
    OthersIgnoreMyPlace(cc, s, early, w, Asked(call, found));
    SameSight(mid, w, Asked(call, found), w, call);
    LookupNumberKeepsInv(cc, s, w, call, found);
    RunKeepsInv(cc, At(s, w, Asked(call, found)), early);
    LookupExternalKeepsInv(cc, At(mid, w, Asked(call, found)), w, known);
    PlacesMerge(mid, w, Asked(call, found), Idle);
    PlacesMerge(mid, w, Asked(call, found), Missed(call));
  }

  class CustomerRepository {
    var s: System

    constructor ()
      ensures s == NOBODY
    {
      s := NOBODY;
    }

    method GetByPhone(cc: CharClasses, w: Worker, tenant: TenantId, phone: string) returns (found: Option<CustomerId>)
      ensures QueryResult(cc, s, w, tenant, phone, found)
      ensures found.None? ==>
                forall id :: id in s.rows && Visible(s, w, id) && s.rows[id].tenant == tenant ==>
                  s.rows[id].phone != Some(phone) && (Normalize(cc, Some(phone)).Ok? ==> s.rows[id].phone != Some(Normalize(cc, Some(phone)).value))
      ensures found.Some? ==>
                && found.value in s.rows && Visible(s, w, found.value) && s.rows[found.value].tenant == tenant
                && (s.rows[found.value].phone == Some(phone) ||
                    (Normalize(cc, Some(phone)).Ok? && s.rows[found.value].phone == Some(Normalize(cc, Some(phone)).value)))
    {
      if id :| id in s.rows && Visible(s, w, id) && Matches(cc, s.rows[id], tenant, phone) {
        return Some(id);
      }
      return None;
    }

    method GetByExternalId(w: Worker, call: Call) returns (known: Result<Option<CustomerId>, LookupError>)
      ensures known.Err? <==> |ByExternalId(s, w, call)| > 1
      ensures known.Err? ==> known.error.AmbiguousExternalId?
      ensures known.Ok? ==> ExternalResult(s, w, call, known.value)
    {
      var customers := ByExternalId(s, w, call);
      if |customers| > 1 {
        return Err(AmbiguousExternalId);
      }
      if customers == {} {
        return Ok(None);
      }
      var id :| id in customers;
      assert |customers - {id}| == 0;
      return Ok(Some(id));
    }

    /** The insert, and the lookup after a violation. */
    method InsertOrFind(cc: CharClasses, w: Worker, id: CustomerId) returns (customer: CustomerId, created: bool)
      requires Sound(cc) && Inv(cc, s) && Enabled(cc, s, Insert(w, id))
      modifies this
      ensures Inv(cc, s) && PcOf(s, w).Idle?
      ensures var call := old(PcOf(s, w)).call;
              && Answer(call, customer, true) in OpenOf(s, w)
              && AnswerInv(cc, s, Some(w), Answer(call, customer, true))
              && (if created then customer == id && s.rows == old(s).rows[id := NewRow(cc, call, w)] else s.rows == old(s).rows)
    {
      ghost var call := PcOf(s, w).call;
      InsertKeepsInv(cc, s, w, id);
      s := Apply(cc, s, Insert(w, id));
      if PcOf(s, w).Idle? {
        assert Answer(call, id, true) in s.open[w];
        return id, true;
      }
      assert s.pcs[w] == Conflicted(call) && SeesRival(cc, s, w, call);
      KeyIsIdempotent(cc, call.phone.value);
      var found := GetByPhone(cc, w, PcOf(s, w).call.tenant, Key(cc, PcOf(s, w).call.phone.value));
      LookAgainKeepsInv(cc, s, w, found);
      s := Apply(cc, s, LookAgain(w, found));
      assert Answer(call, found.value, true) in s.open[w];
      return found.value, false;
    }

    /** The lookup by number and, after whatever the others do, the lookup by external id. */
    method LookUp(cc: CharClasses, w: Worker, call: Call, early: seq<Step>) returns (outcome: Outcome)
      requires Sound(cc) && Inv(cc, s) && PcOf(s, w).Idle? && ByOthers(w, early) && ValidRun(cc, s, early)
      modifies this
      ensures Inv(cc, s)
      ensures var mid := Run(cc, old(s), early);
              && (outcome == Raises(AmbiguousExternalId) <==> |ByExternalId(mid, w, call)| > 1)
              && (outcome == Raises(IdentityConflict) <==> Contradicts(cc, old(s), mid, w, call))
              && (outcome.Gives? ==> (outcome.byNumber <==> FoundUnderNumber(cc, old(s), mid, w, call)))
              && (outcome.Misses? ==> FoundUnderNumber(cc, old(s), mid, w, call))
              && s == Concluded(mid, w, call, outcome)
    {
      ghost var before, mid := s, Run(cc, s, early);
      var found := None;
      if Indexed(call.phone) {
        found := GetByPhone(cc, w, call.tenant, Key(cc, call.phone.value));
      }
      OthersIgnoreMyPlace(cc, s, early, w, Asked(call, found));
      s := Run(cc, At(s, w, Asked(call, found)), early);
      SameSight(mid, w, Asked(call, found), w, call);
      var external := GetByExternalId(w, call);
      outcome := Decide(cc, w, call, found, external);
      ghost var known := if external.Ok? then external.value else None;
      LookupsDecide(cc, before, mid, w, call, found, known);
      LookupsRun(cc, before, w, call, found, early, known);
      s := Concluded(s, w, call, outcome);
    }

    method Decide(cc: CharClasses, w: Worker, call: Call, found: Option<CustomerId>,
                  external: Result<Option<CustomerId>, LookupError>) returns (outcome: Outcome)
      requires external.Ok? ==> ExternalResult(s, w, call, external.value) && |ByExternalId(s, w, call)| <= 1
      requires external.Err? ==> external.error.AmbiguousExternalId? && |ByExternalId(s, w, call)| > 1
      ensures outcome == OutcomeOf(cc, s, w, call, found, if external.Ok? then external.value else None)
    {
      if external.Err? {
        return Raises(external.error);
      }
      var known := external.value;
      assert known.None? ==> ByExternalId(s, w, call) == {};
      assert known.Some? ==> known.value in ByExternalId(s, w, call);
      if found.Some? && known.Some? && found != known {
        return Raises(IdentityConflict);
      }
      if found.Some? {
        return Gives(found.value, true);
      }
      if known.Some? {
        return Gives(known.value, Bears(cc, s.rows[known.value], call));
      }
      return Misses;
    }

    /**
      Whatever the other transactions do between the two lookups and before the insert: exactly when the
      call raises, and exactly when what it gives is stored under its number.
     */
    method GetOrCreate(cc: CharClasses, w: Worker, call: Call, id: CustomerId, early: seq<Step>, late: seq<Step>)
      returns (reply: Result<Answer, LookupError>, created: bool)
      requires Sound(cc) && Inv(cc, s) && PcOf(s, w).Idle?
      requires Interference(cc, s, w, call, early, late, id)
      modifies this
      ensures Inv(cc, s) && PcOf(s, w).Idle?
      ensures var mid := Run(cc, old(s), early);
              var end := Run(cc, mid, late);
              && (reply == Err(AmbiguousExternalId) <==> |ByExternalId(mid, w, call)| > 1)
              && (reply == Err(IdentityConflict) <==> Contradicts(cc, old(s), mid, w, call))
              && (reply.Err? ==> s == At(mid, w, Idle))
              && (reply.Ok? ==> (reply.value.byNumber <==> FoundUnderNumber(cc, old(s), mid, w, call)))
              && (if created then reply == Ok(Answer(call, id, true)) && s.rows == end.rows[id := NewRow(cc, call, w)]
                  else s.rows == mid.rows || s.rows == end.rows)
      ensures reply.Ok? ==>
                reply.value.call == call && AnswerInv(cc, s, Some(w), reply.value) && reply.value in OpenOf(s, w)
    {
      ghost var mid := Run(cc, s, early);
      OthersIgnoreMyPlace(cc, s, early, w, Idle);
      OthersIgnoreMyPlace(cc, mid, late, w, Missed(call));
      var outcome := LookUp(cc, w, call, early);
      match outcome
      case Raises(error) => return Err(error), false;
      case Gives(customer, byNumber) =>
        assert Answer(call, customer, byNumber) in s.open[w];
        return Ok(Answer(call, customer, byNumber)), false;
      case Misses =>
        RunKeepsInv(cc, s, late);
        s := Run(cc, s, late);
        var customer;
        customer, created := InsertOrFind(cc, w, id);
        return Ok(Answer(call, customer, true)), created;
    }
  }
}
