/** A knowledge item's life: drafts, approval, versions, and what an approval still covers. */
module Knowledge {
  import opened Results

  datatype Status =
    | DRAFT | VALIDATING | APPROVED | ACTIVE | OUTDATED | ARCHIVED
    | BLANK                  // the empty string, which no check looks at
    | Other(name: string)

  datatype Content = Content(title: string, body: string, category: string)

  datatype Item = Item(status: Status, version: nat, content: Content, approval: Option<nat>)

  /** What an approval row records. */
  datatype Approval = Approval(title: string, version: nat)

  /** `history` holds the item as it was after each successful call. */
  datatype Desk = Desk(item: Option<Item>, approvals: seq<Approval>, history: seq<Item>)

  const EMPTY_DESK := Desk(None, [], [])

  datatype KnowledgeError =
    | AlreadyCreated | NotFound | InvalidStatusOnCreation | ApprovalRequired | InvalidTransition | NullColumn

  /** A field of a partial update: left out, explicitly null, or given. */
  datatype Field<+T> = Unset | Null | Given(value: T)

  datatype Patch = Patch(title: Field<string>, body: Field<string>, category: Field<string>, status: Field<Status>)

  function Transitions(status: Status): set<Status> {
    match status
    case DRAFT => {VALIDATING, ARCHIVED}
    case VALIDATING => {DRAFT, ARCHIVED}
    case APPROVED => {ACTIVE, OUTDATED, ARCHIVED, DRAFT}
    case ACTIVE => {OUTDATED, ARCHIVED, DRAFT}
    case OUTDATED => {ACTIVE, ARCHIVED, DRAFT}
    case ARCHIVED => {DRAFT}
    case BLANK => {}
    case Other(_) => {}
  }

  predicate TransitionAllowed(current: Status, target: Status) {
    current == target || target in Transitions(current)
  }

  function Or<T>(field: Field<T>, current: T): T {
    if field.Given? then field.value else current
  }

  predicate HasNull(patch: Patch) {
    patch.title.Null? || patch.body.Null? || patch.category.Null? || patch.status.Null?
  }

  predicate Changes(field: Field<string>, current: string) {
    field.Null? || (field.Given? && field.value != current)
  }

  predicate ChangesContent(patch: Patch, content: Content) {
    Changes(patch.title, content.title) || Changes(patch.body, content.body) || Changes(patch.category, content.category)
  }

  function Patched(patch: Patch, content: Content): Content {
    Content(Or(patch.title, content.title), Or(patch.body, content.body), Or(patch.category, content.category))
  }

  function Saved(desk: Desk, item: Item): Desk {
    desk.(item := Some(item), history := desk.history + [item])
  }

  function Create(desk: Desk, content: Content, status: Status): Result<Desk, KnowledgeError> {
    if desk.item.Some? then Err(AlreadyCreated)
    else if status in {APPROVED, ACTIVE} then Err(InvalidStatusOnCreation)
    else Ok(Saved(desk, Item(DRAFT, 1, content, None)))
  }

  /** The status an update ends with: content changed under an approval goes back to DRAFT. */
  function RequestedStatus(item: Item, patch: Patch): Field<Status> {
    if ChangesContent(patch, item.content) && item.status in {APPROVED, ACTIVE} then Given(DRAFT) else patch.status
  }

  function Update(desk: Desk, patch: Patch): Result<Desk, KnowledgeError> {
    if desk.item.None? then Err(NotFound)
    else
      var item := desk.item.value;
      var changed := ChangesContent(patch, item.content);
      var status := RequestedStatus(item, patch);
      if patch.status in {Given(APPROVED), Given(ACTIVE)} && item.status in {DRAFT, VALIDATING} then Err(ApprovalRequired)
      else if status.Given? && !status.value.BLANK? && !TransitionAllowed(item.status, status.value) then Err(InvalidTransition)
      else if HasNull(patch.(status := status)) then Err(NullColumn)
      else
        Ok(Saved(desk, Item(Or(status, item.status),
                            if changed then (if item.version == 0 then 1 else item.version) + 1 else item.version,
                            Patched(patch, item.content),
                            if changed && item.status in {APPROVED, ACTIVE} then None else item.approval)))
  }

  function Approve(desk: Desk): Result<Desk, KnowledgeError> {
    if desk.item.None? then Err(NotFound)
    else
      var item := desk.item.value;
      if item.status !in {DRAFT, VALIDATING} then Err(InvalidTransition)
      else
        var recorded := desk.(approvals := desk.approvals + [Approval(item.content.title, item.version)]);
        Ok(Saved(recorded, item.(status := APPROVED, approval := Some(|desk.approvals|))))
  }

  function Archive(desk: Desk): Result<Desk, KnowledgeError> {
    if desk.item.None? then Err(NotFound)
    else
      var item := desk.item.value;
      if !TransitionAllowed(item.status, ARCHIVED) then Err(InvalidTransition)
      else Ok(Saved(desk, item.(status := ARCHIVED)))
  }

  datatype Op = CreateItem(content: Content, status: Status) | UpdateItem(patch: Patch) | ApproveItem | ArchiveItem

  function Perform(desk: Desk, op: Op): Result<Desk, KnowledgeError> {
    match op
    case CreateItem(content, status) => Create(desk, content, status)
    case UpdateItem(patch) => Update(desk, patch)
    case ApproveItem => Approve(desk)
    case ArchiveItem => Archive(desk)
  }

  function After(desk: Desk, op: Op): Desk {
    match Perform(desk, op)
    case Ok(next) => next
    case Err(_) => desk
  }

  function Run(desk: Desk, ops: seq<Op>): Desk
    decreases |ops|
  {
    if ops == [] then desk else Run(After(desk, ops[0]), ops[1..])
  }

  class BusinessDataService {
    var desk: Desk

    constructor ()
      ensures desk == EMPTY_DESK
    {
      desk := EMPTY_DESK;
    }

    method Save(item: Item)
      modifies this
      ensures desk == Saved(old(desk), item)
    {
      desk := desk.(item := Some(item), history := desk.history + [item]);
    }

    method CreateKnowledgeItem(content: Content, status: Status) returns (error: Option<KnowledgeError>)
      modifies this
      ensures match Create(old(desk), content, status)
              case Ok(next) => error.None? && desk == next
              case Err(e) => error == Some(e) && desk == old(desk)
    {
      if desk.item.Some? {
        return Some(AlreadyCreated);
      }
      if status.APPROVED? || status.ACTIVE? {
        return Some(InvalidStatusOnCreation);
      }
      Save(Item(DRAFT, 1, content, None));
      return None;
    }

    method UpdateKnowledgeItem(patch: Patch) returns (error: Option<KnowledgeError>)
      modifies this
      ensures match Update(old(desk), patch)
              case Ok(next) => error.None? && desk == next
              case Err(e) => error == Some(e) && desk == old(desk)
    {
      if desk.item.None? {
        return Some(NotFound);
      }
      var item := desk.item.value;
      if patch.status in {Given(APPROVED), Given(ACTIVE)} && item.status in {DRAFT, VALIDATING} {
        return Some(ApprovalRequired);
      }
      var status, version, approval := patch.status, item.version, item.approval;
      var changed := false;
      var fields := [(patch.title, item.content.title), (patch.body, item.content.body), (patch.category, item.content.category)];
      for i := 0 to |fields|
        invariant changed <==> exists k :: 0 <= k < i && Changes(fields[k].0, fields[k].1)
      {
        if Changes(fields[i].0, fields[i].1) {
          changed := true;
        }
      }
      assert changed <==> ChangesContent(patch, item.content) by {
        assert fields[0].0 == patch.title && fields[1].0 == patch.body && fields[2].0 == patch.category;
      }
      if changed {
        version := (if item.version == 0 then 1 else item.version) + 1;
        if item.status.APPROVED? || item.status.ACTIVE? {
          status := Given(DRAFT);
          approval := None;
        }
      }
      if status.Given? && !status.value.BLANK? && status.value != item.status {
        if status.value !in Transitions(item.status) {
          return Some(InvalidTransition);
        }
      }
      if patch.title.Null? || patch.body.Null? || patch.category.Null? || status.Null? {
        return Some(NullColumn);
      }
      Save(Item(Or(status, item.status), version, Patched(patch, item.content), approval));
      return None;
    }

    method ApproveKnowledgeItem() returns (error: Option<KnowledgeError>)
      modifies this
      ensures match Approve(old(desk))
              case Ok(next) => error.None? && desk == next
              case Err(e) => error == Some(e) && desk == old(desk)
    {
      if desk.item.None? {
        return Some(NotFound);
      }
      var item := desk.item.value;
      if !(item.status.DRAFT? || item.status.VALIDATING?) {
        return Some(InvalidTransition);
      }
      var id := |desk.approvals|;
      desk := desk.(approvals := desk.approvals + [Approval(item.content.title, item.version)]);
      Save(item.(status := APPROVED, approval := Some(id)));
      return None;
    }

    method ArchiveKnowledgeItem() returns (error: Option<KnowledgeError>)
      modifies this
      ensures match Archive(old(desk))
              case Ok(next) => error.None? && desk == next
              case Err(e) => error == Some(e) && desk == old(desk)
    {
      if desk.item.None? {
        return Some(NotFound);
      }
      if !TransitionAllowed(desk.item.value.status, ARCHIVED) {
        return Some(InvalidTransition);
      }
      Save(desk.item.value.(status := ARCHIVED));
      return None;
    }
  }

  // ----- What each call does -----

  /** A new item is a draft at version 1 without an approval, whatever status was asked for, unless that was APPROVED or ACTIVE. */
  lemma CreationTerms(desk: Desk, content: Content, status: Status)
    requires desk.item.None?
    ensures Create(desk, content, status).Ok? <==> status !in {APPROVED, ACTIVE}
    ensures Create(desk, content, status).Ok? ==>
              && Create(desk, content, status).value.item == Some(Item(DRAFT, 1, content, None))
              && Create(desk, content, status).value.approvals == desk.approvals
  {
  }

  /** The content a patch makes: each field as given, or as it was. */
  predicate PatchedTo(patch: Patch, before: Content, after: Content) {
    && after.title == (if patch.title.Given? then patch.title.value else before.title)
    && after.body == (if patch.body.Given? then patch.body.value else before.body)
    && after.category == (if patch.category.Given? then patch.category.value else before.category)
  }

  /**
    An update that goes through patches the content.  If that changes it, the version goes up by one, and
    an APPROVED or ACTIVE item goes back to DRAFT and loses its approval; otherwise version and approval
    stay, and the status is the one asked for.
   */
  lemma UpdateTerms(desk: Desk, patch: Patch)
    requires Update(desk, patch).Ok?
    ensures Update(desk, patch).value.item.Some? && Update(desk, patch).value.approvals == desk.approvals
    ensures var before, after := desk.item.value, Update(desk, patch).value.item.value;
            && PatchedTo(patch, before.content, after.content)
            && (after.content != before.content ==> after.version == if before.version == 0 then 2 else before.version + 1)
            && (after.content == before.content ==> after.version == before.version)
            && (if after.content != before.content && before.status in {APPROVED, ACTIVE}
                then after.status.DRAFT? && after.approval.None?
                else after.approval == before.approval &&
                     after.status == if patch.status.Given? then patch.status.value else before.status)
  {
    ContentChanges(patch.(status := RequestedStatus(desk.item.value, patch)), desk.item.value.content);
  }

  /** The patch says something about the content that is not so already. */
  predicate Edits(patch: Patch, content: Content) {
    || (patch.title != Unset && patch.title != Given(content.title))
    || (patch.body != Unset && patch.body != Given(content.body))
    || (patch.category != Unset && patch.category != Given(content.category))
  }

  /**
    Why an update is refused: there is no item; it asks for APPROVED or ACTIVE without an approval; the
    status it ends with is not in the table, the empty one being let through; or it clears a column.
   */
  lemma UpdateRefusedIff(desk: Desk, patch: Patch)
    ensures Update(desk, patch) == Err(NotFound) <==> desk.item.None?
    ensures desk.item.Some? ==>
              var item, reply := desk.item.value, Update(desk, patch);
              var unapproved := patch.status in {Given(APPROVED), Given(ACTIVE)} && item.status in {DRAFT, VALIDATING};
              var reset := Edits(patch, item.content) && item.status in {APPROVED, ACTIVE};
              var illegal := !reset && patch.status.Given? && patch.status.value !in {BLANK, item.status} &&
                             patch.status.value !in Transitions(item.status);
              var clears := patch.title.Null? || patch.body.Null? || patch.category.Null? || (patch.status.Null? && !reset);
              && (reply == Err(ApprovalRequired) <==> unapproved)
              && (reply == Err(InvalidTransition) <==> !unapproved && illegal)
              && (reply == Err(NullColumn) <==> !unapproved && !illegal && clears)
              && (reply.Ok? <==> !unapproved && !illegal && !clears)
  {
  }

  /** Where each status can be entered from. */
  lemma TableFacts(status: Status)
    ensures ARCHIVED in Transitions(status) <==> status in {DRAFT, VALIDATING, APPROVED, ACTIVE, OUTDATED}
    ensures DRAFT in Transitions(status) <==> status in {VALIDATING, APPROVED, ACTIVE, OUTDATED, ARCHIVED}
    ensures VALIDATING in Transitions(status) <==> status.DRAFT?
    ensures ACTIVE in Transitions(status) <==> status in {APPROVED, OUTDATED}
    ensures OUTDATED in Transitions(status) <==> status in {APPROVED, ACTIVE}
    ensures APPROVED !in Transitions(status)
  {
  }

  /** An approval takes a draft or an item being validated, records its title and version, and changes nothing else of it. */
  lemma ApprovalTerms(desk: Desk)
    ensures Approve(desk).Ok? <==> desk.item.Some? && desk.item.value.status in {DRAFT, VALIDATING}
    ensures Approve(desk).Ok? ==>
              && Approve(desk).value.approvals == desk.approvals + [Approval(desk.item.value.content.title, desk.item.value.version)]
              && Approve(desk).value.item == Some(desk.item.value.(status := APPROVED, approval := Some(|desk.approvals|)))
  {
  }

  /** Everything but an item with a status outside the table can be archived, and keeps its content, version and approval. */
  lemma ArchivingTerms(desk: Desk)
    ensures Archive(desk).Ok? <==>
              desk.item.Some? && desk.item.value.status in {DRAFT, VALIDATING, APPROVED, ACTIVE, OUTDATED, ARCHIVED}
    ensures Archive(desk).Ok? ==>
              && Archive(desk).value.item == Some(desk.item.value.(status := ARCHIVED))
              && Archive(desk).value.approvals == desk.approvals
  {
  }

  /** An item goes live exactly by an update from APPROVED that leaves its content, or from OUTDATED whatever it does to it. */
  lemma GoesLiveIff(desk: Desk, op: Op)
    requires desk.item.Some? && !desk.item.value.status.ACTIVE?
    ensures After(desk, op).item.Some?
    ensures After(desk, op).item.value.status.ACTIVE? <==>
              && op.UpdateItem? && op.patch.status == Given(ACTIVE)
              && !op.patch.title.Null? && !op.patch.body.Null? && !op.patch.category.Null?
              && (desk.item.value.status.OUTDATED? ||
                  (desk.item.value.status.APPROVED? && PatchedTo(op.patch, desk.item.value.content, desk.item.value.content)))
  {
  }

  // ----- What the history shows -----

  /** Content edits made while OUTDATED since the item's approval id last changed. */
  function EditsWhileOutdated(history: seq<Item>): nat {
    if |history| <= 1 then 0
    else
      var before, now := history[|history| - 2], history[|history| - 1];
      if now.approval != before.approval then 0
      else
        EditsWhileOutdated(history[..|history| - 1]) +
        if before.status.OUTDATED? && now.content != before.content then 1 else 0
  }

  /** The version counts the changes of content, one by one. */
  predicate OneStep(before: Item, now: Item) {
    && before.version >= 1
    && now.version == before.version + if now.content != before.content then 1 else 0
  }

  predicate Versioned(history: seq<Item>) {
    forall k :: 0 < k < |history| ==> OneStep(history[k - 1], history[k])
  }

  predicate Covered(status: Status) {
    status in {APPROVED, ACTIVE, OUTDATED}
  }

  predicate ApprovalInv(item: Item, approvals: seq<Approval>, history: seq<Item>) {
    && (item.approval.Some? ==> item.approval.value < |approvals|)
    && (Covered(item.status) ==>
          && item.approval.Some?
          && item.version == approvals[item.approval.value].version + EditsWhileOutdated(history))
    && (item.status.APPROVED? ==> EditsWhileOutdated(history) == 0)
  }

  /** Each approval recorded the item as it then was. */
  predicate ApprovalSeen(approvals: seq<Approval>, history: seq<Item>, a: nat)
    requires a < |approvals|
  {
    exists k :: 0 <= k < |history| && RecordedBy(history[k], approvals[a], a)
  }

  predicate RecordedBy(item: Item, approval: Approval, a: nat) {
    item.approval == Some(a) && item.status.APPROVED? && item.version == approval.version && item.content.title == approval.title
  }

  /** An approved item has the version its approval recorded. */
  predicate ApprovedAsRecorded(item: Item, approvals: seq<Approval>) {
    item.status.APPROVED? ==>
      && item.approval.Some? && item.approval.value < |approvals|
      && item.version == approvals[item.approval.value].version
  }

  predicate Inv(desk: Desk) {
    && (desk.item.Some? <==> desk.history != [])
    && (desk.item.None? ==> desk.approvals == [])
    && (desk.item.Some? ==>
          && desk.item.value == desk.history[|desk.history| - 1]
          && desk.item.value.version >= 1
          && ApprovalInv(desk.item.value, desk.approvals, desk.history))
    && Versioned(desk.history)
    && (forall k :: 0 <= k < |desk.history| ==> ApprovedAsRecorded(desk.history[k], desk.approvals))
    && forall a :: 0 <= a < |desk.approvals| ==> ApprovalSeen(desk.approvals, desk.history, a)
  }

  lemma SeenStays(approvals: seq<Approval>, later: seq<Approval>, history: seq<Item>, item: Item, a: nat)
    requires a < |approvals| && approvals <= later && ApprovalSeen(approvals, history, a)
    ensures ApprovalSeen(later, history + [item], a)
  {
    var k :| 0 <= k < |history| && RecordedBy(history[k], approvals[a], a);
    assert (history + [item])[k] == history[k] && later[a] == approvals[a];
  }

  lemma SavedKeepsInv(desk: Desk, item: Item)
    requires Inv(desk) && desk.item.Some? && OneStep(desk.item.value, item)
    requires ApprovalInv(item, desk.approvals, desk.history + [item])
    ensures Inv(Saved(desk, item))
  {
    forall a | 0 <= a < |desk.approvals| ensures ApprovalSeen(desk.approvals, desk.history + [item], a) {
      SeenStays(desk.approvals, desk.approvals, desk.history, item, a);
    }
  }

  lemma HistoryGrows(history: seq<Item>, item: Item)
    requires history != []
    ensures EditsWhileOutdated(history + [item]) ==
            if item.approval != history[|history| - 1].approval then 0
            else EditsWhileOutdated(history) +
                 if history[|history| - 1].status.OUTDATED? && item.content != history[|history| - 1].content then 1 else 0
  {
    assert (history + [item])[..|history|] == history;
  }

  lemma ContentChanges(patch: Patch, content: Content)
    requires !HasNull(patch)
    ensures ChangesContent(patch, content) <==> Patched(patch, content) != content
  {
  }

  lemma UpdateKeepsInv(desk: Desk, patch: Patch)
    requires Inv(desk) && Update(desk, patch).Ok?
    ensures Inv(Update(desk, patch).value)
  {
    var item := desk.item.value;
    var after := Update(desk, patch).value.item.value;
    ContentChanges(patch.(status := RequestedStatus(item, patch)), item.content);
    HistoryGrows(desk.history, after);
    SavedKeepsInv(desk, after);
  }

  lemma ApproveKeepsInv(desk: Desk)
    requires Inv(desk) && Approve(desk).Ok?
    ensures Inv(Approve(desk).value)
  {
    var item := desk.item.value;
    var next := Approve(desk).value;
    HistoryGrows(desk.history, next.item.value);
    assert RecordedBy(next.history[|desk.history|], next.approvals[|desk.approvals|], |desk.approvals|);
    forall a | 0 <= a < |next.approvals| ensures ApprovalSeen(next.approvals, next.history, a) {
      if a < |desk.approvals| {
        SeenStays(desk.approvals, next.approvals, desk.history, next.item.value, a);
      }
    }
    forall k | 0 <= k < |next.history| ensures ApprovedAsRecorded(next.history[k], next.approvals) {
      assert k < |desk.history| ==> ApprovedAsRecorded(desk.history[k], desk.approvals);
    }
  }

  lemma ArchiveKeepsInv(desk: Desk)
    requires Inv(desk) && Archive(desk).Ok?
    ensures Inv(Archive(desk).value)
  {
    HistoryGrows(desk.history, Archive(desk).value.item.value);
    SavedKeepsInv(desk, Archive(desk).value.item.value);
  }

  lemma {:induction false} RunKeepsInv(desk: Desk, ops: seq<Op>)
    requires Inv(desk)
    ensures Inv(Run(desk, ops))
    decreases |ops|
  {
    if ops != [] {
      if Perform(desk, ops[0]).Ok? {
        match ops[0]
        case CreateItem(content, status) =>
        case UpdateItem(patch) => UpdateKeepsInv(desk, patch);
        case ApproveItem => ApproveKeepsInv(desk);
        case ArchiveItem => ArchiveKeepsInv(desk);
      }
      RunKeepsInv(After(desk, ops[0]), ops[1..]);
    }
  }

  // ----- Main results -----

  lemma {:induction false} VersionsClimb(history: seq<Item>, i: nat, j: nat)
    requires Versioned(history) && i <= j < |history|
    ensures history[i].version <= history[j].version
    ensures history[i].version == history[j].version ==> history[i].content == history[j].content
    decreases j
  {
    if i < j {
      VersionsClimb(history, i, j - 1);
      assert OneStep(history[j - 1], history[j]);
    }
  }

  /** A version number names one content, over the whole life of an item. */
  lemma VersionNamesContent(ops: seq<Op>, i: nat, j: nat)
    requires i < |Run(EMPTY_DESK, ops).history| && j < |Run(EMPTY_DESK, ops).history|
    ensures var history := Run(EMPTY_DESK, ops).history;
            history[i].version == history[j].version ==> history[i].content == history[j].content
  {
    RunKeepsInv(EMPTY_DESK, ops);
    var history := Run(EMPTY_DESK, ops).history;
    if i <= j {
      VersionsClimb(history, i, j);
    } else {
      VersionsClimb(history, j, i);
    }
  }

  /**
    An item that is APPROVED, ACTIVE or OUTDATED has an approval, and its version is ahead of the
    approved one by exactly the edits made while it was OUTDATED; there are none while it is APPROVED.
   */
  lemma ApprovalTrailsByOutdatedEdits(ops: seq<Op>)
    requires Run(EMPTY_DESK, ops).item.Some? && Covered(Run(EMPTY_DESK, ops).item.value.status)
    ensures var desk := Run(EMPTY_DESK, ops);
            var item := desk.item.value;
            && item.approval.Some? && item.approval.value < |desk.approvals|
            && item.version - desk.approvals[item.approval.value].version == EditsWhileOutdated(desk.history)
            && (item.status.APPROVED? ==> item.version == desk.approvals[item.approval.value].version)
  {
    RunKeepsInv(EMPTY_DESK, ops);
  }

  /** This version of this content was approved under the approval that the item carries. */
  predicate WasApproved(item: Item, history: seq<Item>) {
    exists k :: 0 <= k < |history| && history[k].status.APPROVED? && history[k].approval == item.approval &&
                history[k].version == item.version && history[k].content == item.content
  }

  /** What is in use was approved as it is if and only if there was no such edit. */
  lemma ApprovedContentIsInUseIff(ops: seq<Op>)
    requires Run(EMPTY_DESK, ops).item.Some? && Covered(Run(EMPTY_DESK, ops).item.value.status)
    ensures var desk := Run(EMPTY_DESK, ops);
            WasApproved(desk.item.value, desk.history) <==> EditsWhileOutdated(desk.history) == 0
  {
    RunKeepsInv(EMPTY_DESK, ops);
    var desk := Run(EMPTY_DESK, ops);
    var item, a := desk.item.value, desk.item.value.approval.value;
    if EditsWhileOutdated(desk.history) == 0 {
      assert ApprovalSeen(desk.approvals, desk.history, a);
      var k :| 0 <= k < |desk.history| && RecordedBy(desk.history[k], desk.approvals[a], a);
      VersionsClimb(desk.history, k, |desk.history| - 1);
    }
    if WasApproved(item, desk.history) {
      var k :| 0 <= k < |desk.history| && desk.history[k].status.APPROVED? && desk.history[k].approval == item.approval &&
               desk.history[k].version == item.version;
      assert ApprovedAsRecorded(desk.history[k], desk.approvals);
    }
  }

  /** An edit while OUTDATED goes live without a new approval. */
  lemma UnapprovedContentGoesLive(content: Content, body: string)
    requires body != content.body
    ensures var keep := Patch(Unset, Unset, Unset, Unset);
            var ops := [CreateItem(content, DRAFT), ApproveItem, UpdateItem(keep.(status := Given(OUTDATED))),
                        UpdateItem(keep.(body := Given(body), status := Given(ACTIVE)))];
            var desk := Run(EMPTY_DESK, ops);
            && desk.item == Some(Item(ACTIVE, 2, content.(body := body), Some(0)))
            && desk.approvals == [Approval(content.title, 1)]
  {
    var keep := Patch(Unset, Unset, Unset, Unset);
    var outdate := UpdateItem(keep.(status := Given(OUTDATED)));
    var edit := UpdateItem(keep.(body := Given(body), status := Given(ACTIVE)));
    var ops := [CreateItem(content, DRAFT), ApproveItem, outdate, edit];
    assert ops[1..] == [ApproveItem, outdate, edit] && ops[1..][1..] == [outdate, edit] && ops[1..][1..][1..] == [edit];
    var created := After(EMPTY_DESK, CreateItem(content, DRAFT));
    var approved := After(created, ApproveItem);
    var outdated := After(approved, outdate);
    assert Run(outdated, [edit]) == After(outdated, edit);
    assert Run(approved, [outdate, edit]) == Run(outdated, [edit]);
    assert Run(created, [ApproveItem, outdate, edit]) == Run(approved, [outdate, edit]);
  }
}
