/** The anchor of a task ledger: what has to survive a compaction or a recovery.  A field that
    is absent is `None`; one that is there may still be null. */
module LedgerAnchor {
  import opened Seqs

  datatype Json = Null | Flag(b: bool) | Number(n: int) | Text(s: string) | List(items: seq<Json>)

  type Field = Option<Json>

  function Truthy(field: Field): bool {
    match field
    case None => false
    case Some(Null) => false
    case Some(Flag(b)) => b
    case Some(Number(n)) => n != 0
    case Some(Text(s)) => s != ""
    case Some(List(items)) => items != []
  }

  // ---- Ledgers and their anchors ----

  datatype Checkpoint = Checkpoint(id: Field, generation: Field, supersededBy: Field)
  datatype OpenItem = OpenItem(id: Field, closedBy: Field)
  datatype Goal = Goal(statement: Field, criteria: Field)

  datatype Ledger = Ledger(
    revision: Field, generation: Field, goal: Option<Goal>,
    verified: seq<Checkpoint>, open: seq<OpenItem>, next: Option<Field>, status: Field,
    rest: Json)   // whatever else the value holds, at any depth

  datatype Anchor = Anchor(
    revision: Json, generation: Json, goal: Json, criteria: Json,
    checkpointIds: seq<Json>, openIds: seq<Json>, nextStatement: Json, status: Json)

  function Get(field: Field): Json {
    field.GetOr(Null)
  }

  /** A checkpoint of the current goal that nothing has superseded. */
  predicate Current(item: Checkpoint, generation: Json) {
    Get(item.generation) == generation && !Truthy(item.supersededBy)
  }

  predicate Pending(item: OpenItem) {
    !Truthy(item.closedBy)
  }

  function IdIf(kept: bool, id: Field): seq<Json> {
    if kept then [Get(id)] else []
  }

  function CheckpointIds(items: seq<Checkpoint>, generation: Json): seq<Json> {
    if items == [] then []
    else IdIf(Current(items[0], generation), items[0].id) + CheckpointIds(items[1..], generation)
  }

  function OpenIds(items: seq<OpenItem>): seq<Json> {
    if items == [] then [] else IdIf(Pending(items[0]), items[0].id) + OpenIds(items[1..])
  }

  function Statement(next: Option<Field>): Json {
    Get(next.GetOr(None))
  }

  function AnchorOf(ledger: Ledger): Anchor {
    var generation := ledger.generation.GetOr(Number(0));
    var goal := ledger.goal.GetOr(Goal(None, None));
    Anchor(
      ledger.revision.GetOr(Number(0)), generation, Get(goal.statement), goal.criteria.GetOr(List([])),
      CheckpointIds(ledger.verified, generation), OpenIds(ledger.open), Statement(ledger.next), Get(ledger.status))
  }

  // ---- Packets ----

  datatype Packet = Packet(
    revision: Field, generation: Field, goal: Field, criteria: Field,
    verified: seq<Field>, open: seq<Field>, next: Option<Field>, status: Field)

  const NO_PACKET := Packet(None, None, None, None, [], [], None, None)

  function Ids(fields: seq<Field>): seq<Json> {
    if fields == [] then [] else [Get(fields[0])] + Ids(fields[1..])
  }

  predicate Matches(packet: Option<Packet>, anchor: Anchor) {
    var p := packet.GetOr(NO_PACKET);
    && Get(p.revision) == anchor.revision
    && Get(p.generation) == anchor.generation
    && Get(p.goal) == anchor.goal
    && p.criteria.GetOr(List([])) == anchor.criteria
    && Ids(p.verified) == anchor.checkpointIds
    && Ids(p.open) == anchor.openIds
    && Statement(p.next) == anchor.nextStatement
    && Get(p.status) == anchor.status
  }

  /** The last packet of a history, of the messages that carry one. */
  function LastPacket(packets: seq<Option<Packet>>): Option<Packet> {
    if packets == [] then None
    else if packets[|packets| - 1].Some? then packets[|packets| - 1]
    else LastPacket(packets[..|packets| - 1])
  }

  datatype Response = Response(revision: Field, checkpointIds: Option<seq<Json>>, openIds: Option<seq<Json>>, next: Field)

  predicate ResponseMatches(response: Response, anchor: Anchor) {
    && Get(response.revision) == anchor.revision
    && response.checkpointIds.GetOr([]) == anchor.checkpointIds
    && response.openIds.GetOr([]) == anchor.openIds
    && Get(response.next) == anchor.nextStatement
  }

  // ---- What an anchor does not depend on ----

  /** `more` is `items` with any number of ignored ones put in at any positions. */
  predicate Padded<T(==)>(items: seq<T>, more: seq<T>, ignored: T -> bool) {
    if more == [] then items == []
    else
      || (items != [] && items[0] == more[0] && Padded(items[1..], more[1..], ignored))
      || (ignored(more[0]) && Padded(items, more[1..], ignored))
  }

  lemma {:induction false} PaddedCheckpoints(items: seq<Checkpoint>, more: seq<Checkpoint>, generation: Json)
    requires Padded(items, more, (c: Checkpoint) => !Current(c, generation))
    ensures CheckpointIds(items, generation) == CheckpointIds(more, generation)
    decreases |more|
  {
    if more != [] {
      var ignored := (c: Checkpoint) => !Current(c, generation);
      if items != [] && items[0] == more[0] && Padded(items[1..], more[1..], ignored) {
        PaddedCheckpoints(items[1..], more[1..], generation);
      } else {
        PaddedCheckpoints(items, more[1..], generation);
      }
    }
  }

  lemma {:induction false} PaddedOpenItems(items: seq<OpenItem>, more: seq<OpenItem>)
    requires Padded(items, more, (o: OpenItem) => !Pending(o))
    ensures OpenIds(items) == OpenIds(more)
    decreases |more|
  {
    if more != [] {
      if items != [] && items[0] == more[0] && Padded(items[1..], more[1..], (o: OpenItem) => !Pending(o)) {
        PaddedOpenItems(items[1..], more[1..]);
      } else {
        PaddedOpenItems(items, more[1..]);
      }
    }
  }

  /** Superseded or foreign checkpoints and closed items, anywhere and however many, leave the
      anchor as it is. */
  lemma PaddingDoesNotShow(ledger: Ledger, verified: seq<Checkpoint>, open: seq<OpenItem>)
    requires var generation := ledger.generation.GetOr(Number(0));
             Padded(ledger.verified, verified, (c: Checkpoint) => !Current(c, generation))
    requires Padded(ledger.open, open, (o: OpenItem) => !Pending(o))
    ensures AnchorOf(ledger.(verified := verified, open := open)) == AnchorOf(ledger)
  {
    PaddedCheckpoints(ledger.verified, verified, ledger.generation.GetOr(Number(0)));
    PaddedOpenItems(ledger.open, open);
  }

  lemma {:induction false} CheckpointIdsAppend(a: seq<Checkpoint>, b: seq<Checkpoint>, generation: Json)
    ensures CheckpointIds(a + b, generation) == CheckpointIds(a, generation) + CheckpointIds(b, generation)
  {
    if a == [] {
      assert a + b == b;
    } else {
      CheckpointIdsAppend(a[1..], b, generation);
      assert (a + b)[1..] == a[1..] + b;
      Associate(IdIf(Current(a[0], generation), a[0].id), CheckpointIds(a[1..], generation), CheckpointIds(b, generation));
    }
  }

  lemma {:induction false} OpenIdsAppend(a: seq<OpenItem>, b: seq<OpenItem>)
    ensures OpenIds(a + b) == OpenIds(a) + OpenIds(b)
  {
    if a == [] {
      assert a + b == b;
    } else {
      OpenIdsAppend(a[1..], b);
      assert (a + b)[1..] == a[1..] + b;
      Associate(IdIf(Pending(a[0]), a[0].id), OpenIds(a[1..]), OpenIds(b));
    }
  }

  lemma OneCheckpointId(item: Checkpoint, generation: Json)
    ensures CheckpointIds([item], generation) == IdIf(Current(item, generation), item.id)
  {
    assert [item][1..] == [];
    assert CheckpointIds([item], generation) == IdIf(Current(item, generation), item.id) + [];
  }

  lemma OneOpenId(item: OpenItem)
    ensures OpenIds([item]) == IdIf(Pending(item), item.id)
  {
    assert [item][1..] == [];
    assert OpenIds([item]) == IdIf(Pending(item), item.id) + [];
  }

  lemma CheckpointIdsAround(a: seq<Checkpoint>, item: Checkpoint, b: seq<Checkpoint>, generation: Json)
    ensures var more, ids := CheckpointIds(a + [item] + b, generation), CheckpointIds(a + b, generation);
            if Current(item, generation) then |more| == |ids| + 1 else more == ids
  {
    CheckpointIdsAppend(a, b, generation);
    CheckpointIdsAppend(a + [item], b, generation);
    CheckpointIdsAppend(a, [item], generation);
    OneCheckpointId(item, generation);
  }

  lemma OpenIdsAround(a: seq<OpenItem>, item: OpenItem, b: seq<OpenItem>)
    ensures var more, ids := OpenIds(a + [item] + b), OpenIds(a + b);
            if Pending(item) then |more| == |ids| + 1 else more == ids
  {
    OpenIdsAppend(a, b);
    OpenIdsAppend(a + [item], b);
    OpenIdsAppend(a, [item]);
    OneOpenId(item);
  }

  /** One more checkpoint, wherever it goes, shows exactly if it is current. */
  lemma CheckpointShows(ledger: Ledger, i: nat, item: Checkpoint)
    requires i <= |ledger.verified|
    ensures var more := ledger.(verified := ledger.verified[..i] + [item] + ledger.verified[i..]);
            AnchorOf(more) != AnchorOf(ledger) <==> Current(item, ledger.generation.GetOr(Number(0)))
  {
    assert ledger.verified == ledger.verified[..i] + ledger.verified[i..];
    CheckpointIdsAround(ledger.verified[..i], item, ledger.verified[i..], ledger.generation.GetOr(Number(0)));
  }

  /** One more open item, wherever it goes, shows exactly if it is not closed. */
  lemma OpenItemShows(ledger: Ledger, i: nat, item: OpenItem)
    requires i <= |ledger.open|
    ensures var more := ledger.(open := ledger.open[..i] + [item] + ledger.open[i..]);
            AnchorOf(more) != AnchorOf(ledger) <==> Pending(item)
  {
    assert ledger.open == ledger.open[..i] + ledger.open[i..];
    OpenIdsAround(ledger.open[..i], item, ledger.open[i..]);
  }

  // ---- What a match says ----

  /** Two packets accepted for one anchor agree on all eight fields, lists in order. */
  lemma AcceptedPacketsAgree(one: Packet, other: Packet, anchor: Anchor)
    requires Matches(Some(one), anchor) && Matches(Some(other), anchor)
    ensures Get(one.revision) == Get(other.revision) && Get(one.generation) == Get(other.generation)
    ensures Get(one.goal) == Get(other.goal) && one.criteria.GetOr(List([])) == other.criteria.GetOr(List([]))
    ensures |one.verified| == |other.verified| && forall i :: 0 <= i < |one.verified| ==> Get(one.verified[i]) == Get(other.verified[i])
    ensures |one.open| == |other.open| && forall i :: 0 <= i < |one.open| ==> Get(one.open[i]) == Get(other.open[i])
    ensures Statement(one.next) == Statement(other.next) && Get(one.status) == Get(other.status)
  {
    IdsAt(one.verified);
    IdsAt(other.verified);
    IdsAt(one.open);
    IdsAt(other.open);
  }

  lemma {:induction false} IdsAt(fields: seq<Field>)
    ensures |Ids(fields)| == |fields| && forall i :: 0 <= i < |fields| ==> Ids(fields)[i] == Get(fields[i])
  {
    if fields != [] {
      IdsAt(fields[1..]);
    }
  }

  /** A missing packet is accepted for exactly the ledgers that say null where a number is due
      and have nothing else to keep. */
  lemma MissingPacketMatches(ledger: Ledger)
    ensures Matches(None, AnchorOf(ledger)) <==>
              && ledger.revision == Some(Null) && ledger.generation == Some(Null)
              && Get(ledger.goal.GetOr(Goal(None, None)).statement) == Null
              && ledger.goal.GetOr(Goal(None, None)).criteria.GetOr(List([])) == List([])
              && (forall item :: item in ledger.verified ==> !Current(item, Null))
              && (forall item :: item in ledger.open ==> !Pending(item))
              && Statement(ledger.next) == Null && Get(ledger.status) == Null
  {
    NoCheckpointIds(ledger.verified, ledger.generation.GetOr(Number(0)));
    NoOpenIds(ledger.open);
  }

  lemma {:induction false} NoCheckpointIds(items: seq<Checkpoint>, generation: Json)
    ensures CheckpointIds(items, generation) == [] <==> forall item :: item in items ==> !Current(item, generation)
  {
    if items != [] {
      NoCheckpointIds(items[1..], generation);
      assert forall item :: item in items <==> item == items[0] || item in items[1..];
    }
  }

  lemma {:induction false} NoOpenIds(items: seq<OpenItem>)
    ensures OpenIds(items) == [] <==> forall item :: item in items ==> !Pending(item)
  {
    if items != [] {
      NoOpenIds(items[1..]);
      assert forall item :: item in items <==> item == items[0] || item in items[1..];
    }
  }

  /** With a numeric revision, or none, a missing packet never matches. */
  lemma MissingPacketNeverMatchesNumber(ledger: Ledger)
    requires ledger.revision.None? || ledger.revision.value.Number?
    ensures !Matches(None, AnchorOf(ledger))
  {
    MissingPacketMatches(ledger);
  }

  function Wrap(ids: seq<Json>): seq<Field> {
    if ids == [] then [] else [Some(ids[0])] + Wrap(ids[1..])
  }

  /** The packet that carries an anchor. */
  function Carry(a: Anchor): Packet {
    Packet(
      Some(a.revision), Some(a.generation), Some(a.goal), Some(a.criteria),
      Wrap(a.checkpointIds), Wrap(a.openIds), Some(Some(a.nextStatement)), Some(a.status))
  }

  lemma {:induction false} IdsOfWrap(ids: seq<Json>)
    ensures Ids(Wrap(ids)) == ids
  {
    if ids != [] {
      IdsOfWrap(ids[1..]);
      assert Wrap(ids)[1..] == Wrap(ids[1..]);
    }
  }

  /** The packet of one ledger is accepted for another exactly if their anchors are the same. */
  lemma CarriedAnchorMatches(one: Ledger, other: Ledger)
    ensures Matches(Some(Carry(AnchorOf(one))), AnchorOf(other)) <==> AnchorOf(one) == AnchorOf(other)
  {
    IdsOfWrap(AnchorOf(one).checkpointIds);
    IdsOfWrap(AnchorOf(one).openIds);
  }

  // ---- The anchor, field by field ----

  /** What counts as nothing: an absent field, null, false, zero, an empty text or list. */
  predicate Falsy(field: Field) {
    field in [None, Some(Null), Some(Flag(false)), Some(Number(0)), Some(Text("")), Some(List([]))]
  }

  /** The positions that are kept, all of them and in order. */
  ghost predicate Picks(at: seq<nat>, kept: seq<bool>) {
    && (forall k :: 0 <= k < |at| ==> at[k] < |kept| && kept[at[k]])
    && (forall j, k :: 0 <= j < k < |at| ==> at[j] < at[k])
    && (forall i :: 0 <= i < |kept| && kept[i] ==> i in at)
  }

  predicate KeptCheckpoint(item: Checkpoint, generation: Json) {
    Falsy(item.supersededBy)
    && (item.generation == Some(generation) || (item.generation == None && generation == Null))
  }

  function KeptCheckpoints(items: seq<Checkpoint>, generation: Json): (r: seq<bool>)
    ensures |r| == |items|
  {
    seq(|items|, i requires 0 <= i < |items| => KeptCheckpoint(items[i], generation))
  }

  function KeptItems(items: seq<OpenItem>): (r: seq<bool>)
    ensures |r| == |items|
  {
    seq(|items|, i requires 0 <= i < |items| => Falsy(items[i].closedBy))
  }

  lemma PicksNext(at: seq<nat>, kept: seq<bool>, last: bool)
    requires Picks(at, kept)
    ensures Picks(if last then at + [|kept|] else at, kept + [last])
  {
    var next, more := if last then at + [|kept|] else at, kept + [last];
    forall i | 0 <= i < |more| && more[i] ensures i in next {
      if i < |kept| {
        assert kept[i] && i in at;
      }
    }
  }

  lemma TruthyIsNotFalsy(field: Field)
    ensures Truthy(field) <==> !Falsy(field)
  {
  }

  lemma CheckpointIdsSnoc(items: seq<Checkpoint>, last: Checkpoint, generation: Json)
    ensures CheckpointIds(items + [last], generation)
         == CheckpointIds(items, generation) + (if Current(last, generation) then [Get(last.id)] else [])
  {
    CheckpointIdsAppend(items, [last], generation);
    OneCheckpointId(last, generation);
  }

  lemma OpenIdsSnoc(items: seq<OpenItem>, last: OpenItem)
    ensures OpenIds(items + [last]) == OpenIds(items) + (if Pending(last) then [Get(last.id)] else [])
  {
    OpenIdsAppend(items, [last]);
    OneOpenId(last);
  }

  /** The ids at the positions that are kept. */
  ghost predicate TakenFrom(ids: seq<Json>, all: seq<Json>, at: seq<nat>) {
    |ids| == |at| && forall k :: 0 <= k < |at| ==> at[k] < |all| && ids[k] == all[at[k]]
  }

  ghost predicate Picked(ids: seq<Json>, all: seq<Json>, kept: seq<bool>, at: seq<nat>) {
    |all| == |kept| && Picks(at, kept) && TakenFrom(ids, all, at)
  }

  lemma TakenNext(ids: seq<Json>, all: seq<Json>, at: seq<nat>, id: Json, last: bool)
    requires TakenFrom(ids, all, at)
    ensures TakenFrom(if last then ids + [id] else ids, all + [id], if last then at + [|all|] else at)
  {
    var next, more := if last then at + [|all|] else at, all + [id];
    var taken := if last then ids + [id] else ids;
    forall k | 0 <= k < |next| ensures next[k] < |more| && taken[k] == more[next[k]] {
      if k < |at| {
        assert next[k] == at[k] && taken[k] == ids[k];
      }
    }
  }

  /** One more in the list: its id is taken if it is kept. */
  lemma PickedNext(ids: seq<Json>, all: seq<Json>, kept: seq<bool>, at: seq<nat>, id: Json, last: bool) returns (next: seq<nat>)
    requires Picked(ids, all, kept, at)
    ensures Picked(ids + (if last then [id] else []), all + [id], kept + [last], next)
  {
    PicksNext(at, kept, last);
    TakenNext(ids, all, at, id, last);
    next := if last then at + [|kept|] else at;
    assert ids + [] == ids;
  }

  function CheckpointNames(items: seq<Checkpoint>): (r: seq<Json>)
    ensures |r| == |items|
  {
    seq(|items|, i requires 0 <= i < |items| => if items[i].id.Some? then items[i].id.value else Null)
  }

  function ItemNames(items: seq<OpenItem>): (r: seq<Json>)
    ensures |r| == |items|
  {
    seq(|items|, i requires 0 <= i < |items| => if items[i].id.Some? then items[i].id.value else Null)
  }

  lemma CheckpointsSnoc(front: seq<Checkpoint>, last: Checkpoint, generation: Json)
    ensures KeptCheckpoints(front + [last], generation) == KeptCheckpoints(front, generation) + [KeptCheckpoint(last, generation)]
    ensures CheckpointNames(front + [last]) == CheckpointNames(front) + [Get(last.id)]
    ensures Current(last, generation) == KeptCheckpoint(last, generation)
  {
    TruthyIsNotFalsy(last.supersededBy);
  }

  lemma ItemsSnoc(front: seq<OpenItem>, last: OpenItem)
    ensures KeptItems(front + [last]) == KeptItems(front) + [Falsy(last.closedBy)]
    ensures ItemNames(front + [last]) == ItemNames(front) + [Get(last.id)]
    ensures Pending(last) == Falsy(last.closedBy)
  {
    TruthyIsNotFalsy(last.closedBy);
  }

  lemma {:induction false} CheckpointsPicked(items: seq<Checkpoint>, generation: Json) returns (at: seq<nat>)
    ensures Picked(CheckpointIds(items, generation), CheckpointNames(items), KeptCheckpoints(items, generation), at)
  {
    if items == [] {
      at := [];
      NonePicked();
    } else {
      var front, last := items[..|items| - 1], items[|items| - 1];
      assert items == front + [last];
      at := CheckpointsPicked(front, generation);
      CheckpointsSnoc(front, last, generation);
      CheckpointIdsSnoc(front, last, generation);
      at := PickedNext(CheckpointIds(front, generation), CheckpointNames(front), KeptCheckpoints(front, generation), at,
                       Get(last.id), KeptCheckpoint(last, generation));
    }
  }

  lemma NonePicked()
    ensures Picked([], [], [], [])
  {
  }

  lemma {:induction false} OpenPicked(items: seq<OpenItem>) returns (at: seq<nat>)
    ensures Picked(OpenIds(items), ItemNames(items), KeptItems(items), at)
  {
    if items == [] {
      at := [];
      NonePicked();
    } else {
      var front, last := items[..|items| - 1], items[|items| - 1];
      assert items == front + [last];
      at := OpenPicked(front);
      ItemsSnoc(front, last);
      OpenIdsSnoc(front, last);
      at := PickedNext(OpenIds(front), ItemNames(front), KeptItems(front), at, Get(last.id), Falsy(last.closedBy));
    }
  }

  /** Each field of an anchor, read off the ledger: revision and generation are zero if absent,
      the criteria an empty list, all else null; the ids are those of the checkpoints of the
      generation that nothing supersedes, and of the items that nothing closes, in order. */
  lemma AnchorTells(ledger: Ledger) returns (checkpoints: seq<nat>, open: seq<nat>)
    ensures var a, generation := AnchorOf(ledger), if ledger.generation.Some? then ledger.generation.value else Number(0);
            && a.revision == (if ledger.revision.Some? then ledger.revision.value else Number(0))
            && a.generation == generation
            && a.goal == (if ledger.goal.Some? && ledger.goal.value.statement.Some? then ledger.goal.value.statement.value else Null)
            && a.criteria == (if ledger.goal.Some? && ledger.goal.value.criteria.Some? then ledger.goal.value.criteria.value else List([]))
            && a.nextStatement == (if ledger.next.Some? && ledger.next.value.Some? then ledger.next.value.value else Null)
            && a.status == (if ledger.status.Some? then ledger.status.value else Null)
            && Picked(a.checkpointIds, CheckpointNames(ledger.verified), KeptCheckpoints(ledger.verified, generation), checkpoints)
            && Picked(a.openIds, ItemNames(ledger.open), KeptItems(ledger.open), open)
  {
    checkpoints := CheckpointsPicked(ledger.verified, if ledger.generation.Some? then ledger.generation.value else Number(0));
    open := OpenPicked(ledger.open);
  }

  // ---- Responses and histories ----

  /** A response that says what one ledger's anchor says is accepted for another ledger exactly if
      revision, ids and next statement are the same. */
  lemma CarriedResponseMatches(one: Ledger, other: Ledger)
    ensures var a, b := AnchorOf(one), AnchorOf(other);
            ResponseMatches(Response(Some(a.revision), Some(a.checkpointIds), Some(a.openIds), Some(a.nextStatement)), b)
            <==> a.revision == b.revision && a.checkpointIds == b.checkpointIds && a.openIds == b.openIds
                 && a.nextStatement == b.nextStatement
  {
  }

  /** A response with nothing in it is accepted exactly where nothing is to be kept. */
  lemma EmptyResponseMatches(ledger: Ledger)
    ensures ResponseMatches(Response(None, None, None, None), AnchorOf(ledger))
            <==> ledger.revision == Some(Null) && Statement(ledger.next) == Null
                 && (forall item :: item in ledger.verified ==> !Current(item, AnchorOf(ledger).generation))
                 && (forall item :: item in ledger.open ==> !Pending(item))
  {
    NoCheckpointIds(ledger.verified, AnchorOf(ledger).generation);
    NoOpenIds(ledger.open);
  }

  /** The last packet is one of the history, and no later message carries one; there is none
      only if no message does. */
  lemma {:induction false} LastPacketIsLast(packets: seq<Option<Packet>>) returns (at: int)
    ensures -1 <= at < |packets| && forall j :: at < j < |packets| ==> packets[j].None?
    ensures LastPacket(packets) == if at < 0 then None else packets[at]
    ensures at >= 0 ==> packets[at].Some?
  {
    if packets == [] {
      at := -1;
    } else if packets[|packets| - 1].Some? {
      at := |packets| - 1;
    } else {
      at := LastPacketIsLast(packets[..|packets| - 1]);
    }
  }
}
