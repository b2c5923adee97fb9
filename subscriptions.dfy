/** Subscription usage accounting (`subscriptionService`): the usage counter that each
    tracked order consumes and a refund gives back, the monthly rollover that zeroes the
    counter and every order's `checkCount`, the plan upsert and the status update. The
    table is keyed by subscription `id`; `user_id` is unique. */
module Subscriptions {
  import opened Util
  import opened Db

  // ---- Usage counter ----

  /** `UPDATE subscriptions SET usage = <f(usage)> WHERE id = ?`: the table after the
      statement and the number of rows it matched. */
  function SetUsage(subs: map<int, Subscription>, id: int, f: int -> int): (map<int, Subscription>, nat)
  {
    if id in subs then (subs[id := subs[id].(usage := f(subs[id].usage))], 1) else (subs, 0)
  }

  /** `usage + 1` */
  function Plus1(u: int): int { u + 1 }

  /** `MAX(0, usage - 1)` */
  function Minus1Floor0(u: int): int { if u - 1 > 0 then u - 1 else 0 }

  /** `incrementUsage(db, subscriptionId)` */
  method IncrementUsage(db: Database, subscriptionId: int) returns (r: Result<Option<nat>>)
    requires db.Valid()
    modifies db`subscriptions
    ensures db.Valid()
    ensures Subscriptions in db.writeFails ==> r == Err(StorageError) && db.subscriptions == old(db.subscriptions)
    ensures Subscriptions !in db.writeFails ==>
      var (subs, matched) := SetUsage(old(db.subscriptions), subscriptionId, Plus1);
      db.subscriptions == subs && r == Ok(Reported(db.postgres, matched))
  {
    if Subscriptions in db.writeFails {
      return Err(StorageError);
    }
    var (subs, matched) := SetUsage(db.subscriptions, subscriptionId, Plus1);
    SetUsageKeepsUsers(db.subscriptions, subscriptionId, Plus1);
    db.subscriptions := subs;
    return Ok(Reported(db.postgres, matched));
  }

  /** PostgreSQL's refusal of `MAX(0, usage - 1)`: its `max` is an aggregate only, and the
      two-argument scalar form is SQLite's. */
  const NoScalarMax := "function max(integer, integer) does not exist"

  /** `decrementUsage(db, subscriptionId)`, the refund of one use; its statement is SQLite
      syntax, so on Postgres it always rejects. */
  method DecrementUsage(db: Database, subscriptionId: int) returns (r: Result<Option<nat>>)
    requires db.Valid()
    modifies db`subscriptions
    ensures db.Valid()
    ensures db.postgres ==> r == Err(NoScalarMax) && db.subscriptions == old(db.subscriptions)
    ensures !db.postgres && Subscriptions in db.writeFails ==> r == Err(StorageError) && db.subscriptions == old(db.subscriptions)
    ensures !db.postgres && Subscriptions !in db.writeFails ==>
      var (subs, matched) := SetUsage(old(db.subscriptions), subscriptionId, Minus1Floor0);
      db.subscriptions == subs && r == Ok(Reported(db.postgres, matched))
  {
    if db.postgres {
      return Err(NoScalarMax);
    }
    if Subscriptions in db.writeFails {
      return Err(StorageError);
    }
    var (subs, matched) := SetUsage(db.subscriptions, subscriptionId, Minus1Floor0);
    SetUsageKeepsUsers(db.subscriptions, subscriptionId, Minus1Floor0);
    db.subscriptions := subs;
    return Ok(Reported(db.postgres, matched));
  }

  /** A counter update touches only the usage of the named row. */
  lemma SetUsageKeepsUsers(subs: map<int, Subscription>, id: int, f: int -> int)
    ensures var (after, matched) := SetUsage(subs, id, f);
      && after.Keys == subs.Keys
      && matched == (if id in subs then 1 else 0)
      && (forall k :: k in subs && k != id ==> after[k] == subs[k])
      && (id in subs ==> after[id] == subs[id].(usage := f(subs[id].usage)))
      && (UniqueSubscriptionUsers(subs) ==> UniqueSubscriptionUsers(after))
  {
    var (after, matched) := SetUsage(subs, id, f);
    if id in subs {
      forall a, b | a in after && b in after && a != b ensures after[a].userId == subs[a].userId {
      }
    }
  }

  /** `incrementUsage` adds exactly one to the row's usage, in the one row it matches. */
  lemma IncrementAddsOne(subs: map<int, Subscription>, id: int)
    requires id in subs
    ensures SetUsage(subs, id, Plus1).0[id].usage == subs[id].usage + 1
    ensures SetUsage(subs, id, Plus1).1 == 1
  {
  }

  /** `decrementUsage` never leaves usage below 0, takes one off a positive usage and
      leaves a zero usage at zero. */
  lemma DecrementFloorsAtZero(subs: map<int, Subscription>, id: int)
    requires id in subs
    ensures var u := SetUsage(subs, id, Minus1Floor0).0[id].usage;
      && u >= 0
      && (subs[id].usage > 0 ==> u == subs[id].usage - 1)
      && (subs[id].usage <= 0 ==> u == 0)
  {
  }

  /** A refund undoes a use: decrementing after incrementing a non-negative counter gives
      back the table it started from. */
  lemma RefundUndoesUse(subs: map<int, Subscription>, id: int)
    requires id in subs ==> subs[id].usage >= 0
    ensures SetUsage(SetUsage(subs, id, Plus1).0, id, Minus1Floor0).0 == subs
  {
    if id in subs {
      var once := SetUsage(subs, id, Plus1).0;
      assert SetUsage(once, id, Minus1Floor0).0[id] == subs[id];
    }
  }

  // ---- Monthly rollover ----

  /** The renewal is due when no date is stored or the stored day start is before now
      (`!sub.renewal_date || moment(sub.renewal_date).isBefore(now)`). */
  predicate Due(s: Subscription, now: int)
  {
    s.renewalDate.None? || s.renewalDate.value < now
  }

  /** `UPDATE pedidos SET checkCount = 0 WHERE cliente_id = ?` */
  function ResetChecks(ps: seq<Pedido>, userId: int): (r: seq<Pedido>)
    ensures |r| == |ps|
    ensures forall i :: 0 <= i < |ps| ==>
      r[i] == if ps[i].clienteId == Some(userId) then ps[i].(cols := ps[i].cols[CheckCount := Int(0)]) else ps[i]
  {
    seq(|ps|, i requires 0 <= i < |ps| =>
      if ps[i].clienteId == Some(userId) then ps[i].(cols := ps[i].cols[CheckCount := Int(0)]) else ps[i])
  }

  /** `resetUsageIfNeeded(db, subscriptionId)` on the pair of tables it writes, with the
      read and both writes succeeding: `next` is the start of the day one month after now. */
  function Rollover(subs: map<int, Subscription>, ps: seq<Pedido>, id: int, now: int, next: int)
    : (map<int, Subscription>, seq<Pedido>)
  {
    if id !in subs || !Due(subs[id], now) then (subs, ps)
    else (subs[id := subs[id].(usage := 0, renewalDate := Some(next))], ResetChecks(ps, subs[id].userId))
  }

  /** `resetUsageIfNeeded(db, subscriptionId)` on SQLite. `monthLater(now)` is moment's
      `now.clone().add(1, 'month').startOf('day')`. The two UPDATEs run between BEGIN and
      COMMIT without a callback, so a rejected UPDATE is not observed: each table takes its
      half of the rollover unless its own UPDATE rejects, and COMMIT resolves the call. */
  method ResetUsageIfNeeded(db: Database, subscriptionId: int, now: int, monthLater: int -> int) returns (r: Outcome)
    requires db.Valid()
    modifies db`subscriptions, db`pedidos
    ensures db.Valid()
    ensures Subscriptions in db.readFails ==>
      r == Fail(StorageError) && db.subscriptions == old(db.subscriptions) && db.pedidos == old(db.pedidos)
    ensures Subscriptions !in db.readFails ==> r == Pass
    ensures Subscriptions !in db.readFails ==>
      var (subs, ps) := Rollover(old(db.subscriptions), old(db.pedidos), subscriptionId, now, monthLater(now));
      && db.subscriptions == (if Subscriptions in db.writeFails then old(db.subscriptions) else subs)
      && db.pedidos == (if Pedidos in db.writeFails then old(db.pedidos) else ps)
  {
    if Subscriptions in db.readFails {
      return Fail(StorageError);
    }
    if subscriptionId !in db.subscriptions {
      return Pass;
    }
    var sub := db.subscriptions[subscriptionId];
    if sub.renewalDate.Some? && !(sub.renewalDate.value < now) {
      return Pass;
    }
    var next := monthLater(now);
    if Subscriptions !in db.writeFails {
      db.subscriptions := db.subscriptions[subscriptionId := sub.(usage := 0, renewalDate := Some(next))];
    }
    if Pedidos !in db.writeFails {
      ResetChecksValid(db.pedidos, sub.userId, db.nextPedidoId);
      db.pedidos := ResetChecks(db.pedidos, sub.userId);
    }
    return Pass;
  }

  /** Zeroing `checkCount` keeps every table invariant of `pedidos`. */
  lemma ResetChecksValid(ps: seq<Pedido>, userId: int, nextId: int)
    requires IncreasingIds(ps) && UniquePhonePerTenant(ps)
    requires forall i :: 0 <= i < |ps| ==> ps[i].id < nextId && WellTyped(ps[i])
    ensures var r := ResetChecks(ps, userId);
      && IncreasingIds(r) && UniquePhonePerTenant(r)
      && (forall i :: 0 <= i < |r| ==> r[i].id < nextId && WellTyped(r[i]))
  {
    var r := ResetChecks(ps, userId);
    forall i | 0 <= i < |r| ensures Get(r[i], Telefone) == Get(ps[i], Telefone) && WellTyped(r[i]) {
      assert WellTyped(ps[i]);
    }
  }

  /** A renewal that is not yet due, or a missing subscription, changes nothing. */
  lemma NotDueChangesNothing(subs: map<int, Subscription>, ps: seq<Pedido>, id: int, now: int, next: int)
    requires id in subs ==> subs[id].renewalDate.Some? && subs[id].renewalDate.value >= now
    ensures Rollover(subs, ps, id, now, next) == (subs, ps)
  {
  }

  /** A due rollover zeroes the usage, moves the renewal to `next`, zeroes the `checkCount`
      of every order of the subscriber and of no other order, and changes nothing else. */
  lemma RolloverResets(subs: map<int, Subscription>, ps: seq<Pedido>, id: int, now: int, next: int)
    requires id in subs && Due(subs[id], now)
    ensures var (subs', ps') := Rollover(subs, ps, id, now, next);
      && subs'.Keys == subs.Keys
      && subs'[id].usage == 0 && subs'[id].renewalDate == Some(next)
      && subs'[id].userId == subs[id].userId && subs'[id].planId == subs[id].planId
      && subs'[id].status == subs[id].status
      && (forall k :: k in subs && k != id ==> subs'[k] == subs[k])
      && |ps'| == |ps|
      && (forall i :: 0 <= i < |ps| ==> ps'[i].id == ps[i].id && ps'[i].clienteId == ps[i].clienteId)
      && (forall i, c :: 0 <= i < |ps| && c != CheckCount ==> Get(ps'[i], c) == Get(ps[i], c))
      && (forall i :: 0 <= i < |ps| && ps[i].clienteId == Some(subs[id].userId) ==> Get(ps'[i], CheckCount) == Int(0))
      && (forall i :: 0 <= i < |ps| && ps[i].clienteId != Some(subs[id].userId) ==> ps'[i] == ps[i])
  {
  }

  /** Once rolled over, the subscription is not due again before the new renewal day. */
  lemma RolloverNotDueAgain(subs: map<int, Subscription>, ps: seq<Pedido>, id: int, now: int, next: int, later: int)
    requires id in subs && Due(subs[id], now)
    requires later <= next
    ensures var (subs', ps') := Rollover(subs, ps, id, now, next);
      Rollover(subs', ps', id, later, next) == (subs', ps')
  {
  }

  // ---- Plan upsert ----

  /** The subscriber row after `updateUserPlan`: plan set, active, no usage, no renewal date. */
  function Fresh(userId: int, planId: int): Subscription
  {
    Subscription(userId, planId, "active", 0, None)
  }

  predicate HasSubscription(subs: map<int, Subscription>, userId: int)
  {
    exists k :: k in subs && subs[k].userId == userId
  }

  /** `INSERT … ON CONFLICT(user_id) DO UPDATE SET plan_id, status = 'active', usage = 0,
      renewal_date = NULL`: the table, the next id, and the id of an inserted row. */
  function Upsert(subs: map<int, Subscription>, nextId: int, userId: int, planId: int)
    : (map<int, Subscription>, int, Option<int>)
  {
    if HasSubscription(subs, userId) then
      (map k | k in subs :: if subs[k].userId == userId then Fresh(userId, planId) else subs[k], nextId, None)
    else (subs[nextId := Fresh(userId, planId)], nextId + 1, Some(nextId))
  }

  /** `updateUserPlan(db, userId, planId)`: resolves with the id of the user's subscription
      row and the reported count of its one written row. The id is the new row's id after an
      insert, and the conflicting row's id after an update, as `RETURNING id` reports it. */
  method UpdateUserPlan(db: Database, userId: int, planId: int) returns (r: Result<(int, Option<nat>)>)
    requires db.Valid()
    modifies db`subscriptions, db`nextSubscriptionId
    ensures db.Valid()
    ensures Subscriptions in db.writeFails ==>
      r == Err(StorageError) && db.subscriptions == old(db.subscriptions) && db.nextSubscriptionId == old(db.nextSubscriptionId)
    ensures Subscriptions !in db.writeFails ==>
      var (subs, next, inserted) := Upsert(old(db.subscriptions), old(db.nextSubscriptionId), userId, planId);
      && db.subscriptions == subs && db.nextSubscriptionId == next
      && r.Ok? && r.value.1 == Reported(db.postgres, 1)
      && r.value.0 in db.subscriptions && db.subscriptions[r.value.0] == Fresh(userId, planId)
      && (inserted.Some? ==> r.value.0 == inserted.value)
      && (inserted.None? ==> r.value.0 in old(db.subscriptions) && old(db.subscriptions)[r.value.0].userId == userId)
  {
    if Subscriptions in db.writeFails {
      return Err(StorageError);
    }
    UpsertKeepsOnePerUser(db.subscriptions, db.nextSubscriptionId, userId, planId);
    if k :| k in db.subscriptions && db.subscriptions[k].userId == userId {
      UpsertUpdatesConflictingRow(db.subscriptions, db.nextSubscriptionId, userId, planId, k);
      db.subscriptions := db.subscriptions[k := Fresh(userId, planId)];
      return Ok((k, Reported(db.postgres, 1)));
    }
    var id := db.nextSubscriptionId;
    db.subscriptions := db.subscriptions[id := Fresh(userId, planId)];
    db.nextSubscriptionId := id + 1;
    return Ok((id, Reported(db.postgres, 1)));
  }

  /** With unique subscribers, the conflict branch rewrites just the one conflicting row. */
  lemma UpsertUpdatesConflictingRow(subs: map<int, Subscription>, nextId: int, userId: int, planId: int, k: int)
    requires UniqueSubscriptionUsers(subs)
    requires k in subs && subs[k].userId == userId
    ensures Upsert(subs, nextId, userId, planId) == (subs[k := Fresh(userId, planId)], nextId, None)
  {
    assert HasSubscription(subs, userId);
    var after := map j | j in subs :: if subs[j].userId == userId then Fresh(userId, planId) else subs[j];
    forall j | j in subs ensures after[j] == subs[k := Fresh(userId, planId)][j] {
      if j != k {
        assert subs[j].userId != userId;
      }
    }
    assert after == subs[k := Fresh(userId, planId)];
  }

  /** After the upsert the user has exactly one subscription, on the plan, active, with no
      usage and no renewal date; every other subscriber's row is kept; the key invariants
      of the table are kept. */
  lemma UpsertKeepsOnePerUser(subs: map<int, Subscription>, nextId: int, userId: int, planId: int)
    requires UniqueSubscriptionUsers(subs)
    requires forall k :: k in subs ==> k < nextId
    ensures var (after, next, _) := Upsert(subs, nextId, userId, planId);
      && UniqueSubscriptionUsers(after)
      && (forall k :: k in after ==> k < next)
      && (exists k :: k in after && after[k] == Fresh(userId, planId))
      && (forall k :: k in after && after[k].userId == userId ==> after[k] == Fresh(userId, planId))
      && (forall k :: k in subs && subs[k].userId != userId ==> k in after && after[k] == subs[k])
      && (forall k :: k in after && after[k].userId != userId ==> k in subs)
  {
    var (after, next, _) := Upsert(subs, nextId, userId, planId);
    if HasSubscription(subs, userId) {
      var k :| k in subs && subs[k].userId == userId;
      assert after[k] == Fresh(userId, planId);
    } else {
      assert after[nextId] == Fresh(userId, planId);
    }
  }

  /** Switching to the same plan twice is switching once. */
  lemma UpsertIdempotent(subs: map<int, Subscription>, nextId: int, userId: int, planId: int)
    ensures var (once, next, _) := Upsert(subs, nextId, userId, planId);
      Upsert(once, next, userId, planId).0 == once && Upsert(once, next, userId, planId).1 == next
  {
    var (once, next, _) := Upsert(subs, nextId, userId, planId);
    if HasSubscription(subs, userId) {
      var k :| k in subs && subs[k].userId == userId;
      assert k in once && once[k].userId == userId;
    } else {
      assert once[nextId].userId == userId;
      forall k | k in once && once[k].userId == userId ensures once[k] == Fresh(userId, planId) {
      }
    }
  }

  // ---- Status ----

  /** `UPDATE subscriptions SET status = ? WHERE user_id = ?` */
  function SetStatus(subs: map<int, Subscription>, userId: int, status: string): map<int, Subscription>
  {
    map k | k in subs :: if subs[k].userId == userId then subs[k].(status := status) else subs[k]
  }

  /** `updateSubscriptionStatus(db, userId, status)`: resolves with the reported count of the
      rows the UPDATE matched. */
  method UpdateSubscriptionStatus(db: Database, userId: int, status: string) returns (r: Result<Option<nat>>)
    requires db.Valid()
    modifies db`subscriptions
    ensures db.Valid()
    ensures Subscriptions in db.writeFails ==> r == Err(StorageError) && db.subscriptions == old(db.subscriptions)
    ensures Subscriptions !in db.writeFails ==>
      db.subscriptions == SetStatus(old(db.subscriptions), userId, status)
      && r == Ok(Reported(db.postgres, if HasSubscription(old(db.subscriptions), userId) then 1 else 0))
  {
    if Subscriptions in db.writeFails {
      return Err(StorageError);
    }
    StatusOnlyChangesStatus(db.subscriptions, userId, status);
    var matched := if HasSubscription(db.subscriptions, userId) then 1 else 0;
    db.subscriptions := SetStatus(db.subscriptions, userId, status);
    return Ok(Reported(db.postgres, matched));
  }

  /** The status update changes only the status, and only of that user's subscription. */
  lemma StatusOnlyChangesStatus(subs: map<int, Subscription>, userId: int, status: string)
    ensures var after := SetStatus(subs, userId, status);
      && after.Keys == subs.Keys
      && (forall k :: k in subs && subs[k].userId == userId ==> after[k] == subs[k].(status := status))
      && (forall k :: k in subs && subs[k].userId != userId ==> after[k] == subs[k])
      && (UniqueSubscriptionUsers(subs) ==> UniqueSubscriptionUsers(after))
  {
    var after := SetStatus(subs, userId, status);
    forall k | k in subs ensures after[k].userId == subs[k].userId {
    }
  }
}
