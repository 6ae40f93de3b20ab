/** The `payments` table behind `PaymentRepository` (a Spring Data
    interface): rows keyed by their generated id, the three lookups the
    controller uses, and `save`, which inserts a new entity or merges a
    loaded one and is refused when a column constraint would break. */
module PaymentStore {
  import opened Wrappers
  import opened PaymentEntity

  /** Every stored row carries its own key as id, every key was handed out,
      the column constraints hold, and no two rows share an order number. */
  ghost predicate TableValid(rows: map<nat, PaymentRow>, nextId: nat)
  {
    && (forall k :: k in rows ==> rows[k].id == Some(k) && k < nextId && SatisfiesColumns(rows[k]))
    && (forall k1, k2 :: k1 in rows && k2 in rows && rows[k1].orderNo == rows[k2].orderNo ==> k1 == k2)
  }

  /** `row` may be stored under `key`: it satisfies the columns and no other
      row holds its order number. */
  predicate Admissible(rows: map<nat, PaymentRow>, key: nat, row: PaymentRow)
  {
    SatisfiesColumns(row) && forall k :: k in rows && k != key ==> rows[k].orderNo != row.orderNo
  }

  /** Storing an admissible row under its own id keeps the table valid. */
  lemma StoreKeepsValid(rows: map<nat, PaymentRow>, nextId: nat, key: nat, row: PaymentRow)
    requires TableValid(rows, nextId)
    requires key < nextId && row.id == Some(key) && Admissible(rows, key, row)
    ensures TableValid(rows[key := row], nextId)
  {
    var rows' := rows[key := row];
    forall k1, k2 | k1 in rows' && k2 in rows' && rows'[k1].orderNo == rows'[k2].orderNo
      ensures k1 == k2
    {
      if k1 != key && k2 != key {
        assert rows'[k1] == rows[k1] && rows'[k2] == rows[k2];
      }
    }
  }

  /** The keys of the rows for one order number: at most one in a valid
      table. */
  function KeysOfOrder(rows: map<nat, PaymentRow>, orderNo: string): set<nat>
  {
    set k | k in rows && rows[k].orderNo == Some(orderNo)
  }

  /** The keys of the rows for one shop transaction id; the column is not
      unique, so there may be several. A null id matches nothing, since the
      column is never null. */
  function KeysOfTransaction(rows: map<nat, PaymentRow>, shopTransactionId: Option<string>): set<nat>
  {
    set k | k in rows && shopTransactionId.Some? && rows[k].shopTransactionId == shopTransactionId
  }

  /** What a `save` of `current` writes over a stored row: nothing when the
      entity is unchanged (no dirty field, no `@PreUpdate`), otherwise the
      entity with its update time stamped. Either way the written row holds
      every column of the entity except, possibly, `updatedAt`. */
  function Flushed(stored: PaymentRow, current: PaymentRow, now: Timestamp): (r: PaymentRow)
    ensures r.(updatedAt := current.updatedAt) == current
    ensures r == stored || r.updatedAt == Some(now)
    ensures current == stored ==> r == stored
  {
    if current == stored then stored else Touched(current, now)
  }

  class PaymentRepository {
    var rows: map<nat, PaymentRow>
    /** The next value of the identity column. */
    var nextId: nat

    ghost predicate Valid()
      reads this
    {
      TableValid(rows, nextId)
    }

    /** An empty table whose identity column starts at 1. */
    constructor ()
      ensures Valid() && rows == map[] && nextId == 1
    {
      rows := map[];
      nextId := 1;
    }

    /** `findByOrderNo`: a fresh entity loaded from the order's row, or
        null when there is none. */
    method FindByOrderNo(orderNo: string) returns (p: Payment?)
      requires Valid()
      ensures p == null <==> KeysOfOrder(rows, orderNo) == {}
      ensures p != null ==> fresh(p) && p.id.Some? && KeysOfOrder(rows, orderNo) == {p.id.value}
                            && p.Snapshot() == rows[p.id.value]
    {
      if k :| k in rows && rows[k].orderNo == Some(orderNo) {
        assert KeysOfOrder(rows, orderNo) == {k};
        p := new Payment.Hydrate(rows[k]);
      } else {
        p := null;
      }
    }

    /** `findByShopTransactionId`: a fresh entity when exactly one row
        matches, null when none does; `ambiguous` when several do, where the
        query throws. */
    method FindByShopTransactionId(shopTransactionId: Option<string>) returns (p: Payment?, ambiguous: bool)
      requires Valid()
      ensures ambiguous <==> |KeysOfTransaction(rows, shopTransactionId)| >= 2
      ensures p == null <==> KeysOfTransaction(rows, shopTransactionId) == {} || ambiguous
      ensures p != null ==> fresh(p) && p.id.Some? && KeysOfTransaction(rows, shopTransactionId) == {p.id.value}
                            && p.Snapshot() == rows[p.id.value]
    {
      var keys := KeysOfTransaction(rows, shopTransactionId);
      if |keys| >= 2 {
        return null, true;
      }
      if k :| k in keys {
        assert keys == {k} by {
          assert |keys - {k}| == |keys| - 1 == 0;
        }
        p := new Payment.Hydrate(rows[k]);
      } else {
        p := null;
      }
      ambiguous := false;
    }

    /** `save`. A new entity (no id) goes through `@PrePersist` and is
        inserted under the next id; a loaded one is merged over its row,
        through `@PreUpdate` when it changed. When the row would break a
        constraint, nothing is stored and `ok` is false (the call throws). */
    method Save(p: Payment, now: Timestamp) returns (ok: bool)
      requires Valid()
      requires p.id.Some? ==> p.id.value in rows
      modifies this, p
      ensures Valid()
      ensures old(p.id).None? ==>
                var row := Created(old(p.Snapshot()), now).(id := Some(old(nextId)));
                && (ok <==> Admissible(old(rows), old(nextId), row))
                && (ok ==> rows == old(rows)[old(nextId) := row] && p.Snapshot() == row
                           && nextId == old(nextId) + 1)
                && (!ok ==> rows == old(rows) && p.Snapshot() == Created(old(p.Snapshot()), now)
                            && nextId == old(nextId))
      ensures old(p.id).Some? ==>
                var key := old(p.id).value;
                var row := Flushed(old(rows)[key], old(p.Snapshot()), now);
                && nextId == old(nextId)
                && p.Snapshot() == row
                && (ok <==> Admissible(old(rows), key, row))
                && (ok ==> rows == old(rows)[key := row])
                && (!ok ==> rows == old(rows))
    {
      if p.id.None? {
        p.OnCreate(now);
        var row := p.Snapshot().(id := Some(nextId));
        if Admissible(rows, nextId, row) {
          p.SetId(Some(nextId));
          StoreKeepsValid(rows, nextId + 1, nextId, row);
          rows := rows[nextId := row];
          nextId := nextId + 1;
          ok := true;
        } else {
          ok := false;
        }
      } else {
        var key := p.id.value;
        if p.Snapshot() != rows[key] {
          p.OnUpdate(now);
        }
        var row := p.Snapshot();
        if Admissible(rows, key, row) {
          ok := true;
          assert row.id == Some(key);
          StoreKeepsValid(rows, nextId, key, row);
          rows := rows[key := row];
        } else {
          ok := false;
        }
      }
    }
  }
}
