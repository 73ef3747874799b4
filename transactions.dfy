/** The two read-modify-write transactions on a user's device document
    (`updateDevice` and `deleteDevice`), each applied as one atomic step to
    the store: the collection of user documents keyed by user id, where a
    missing key is a document that does not exist. */
module Transactions {
  import opened Wrappers
  import opened Devices

  type Store = map<UserId, Doc>

  /** What a transaction body asks the database to do: `transaction.update` of the
      `devices` field alone, or `transaction.set` of the whole document. */
  datatype TxWrite = UpdateDevicesField(devices: seq<Device>) | SetDocument(doc: Doc)

  /** `transaction.get`: the snapshot of a user's document. */
  function Lookup(store: Store, userId: UserId): Option<Doc> {
    if userId in store then Some(store[userId]) else None
  }

  /** Commits a transaction's write. An update of a missing document fails, so the
      store is left as it was. */
  function Commit(store: Store, userId: UserId, w: TxWrite): (r: Store)
    ensures forall v :: v in store && v != userId ==> v in r && r[v] == store[v]
    ensures forall v :: v in r ==> v in store || v == userId
  {
    match w
    case SetDocument(doc) => store[userId := doc]
    case UpdateDevicesField(ds) =>
      if userId in store then store[userId := store[userId].(devices := Some(ds))] else store
  }

  /** The write the `updateDevice` transaction issues for a given snapshot. */
  function UpdateDeviceWrite(doc: Option<Doc>, userId: UserId, token: Option<Token>): TxWrite {
    match doc
    case Some(d) =>
      var ds := GetDevices(d);
      UpdateDevicesField(if HasCurrentDevice(ds) then WithToken(ds, token)
                         else ds + [CreateCurrentDevice(token)])
    case None => SetDocument(CreateUserDevices(userId, token))
  }

  /** The write the `deleteDevice` transaction issues for a given snapshot. */
  function DeleteDeviceWrite(doc: Option<Doc>, userId: UserId): TxWrite {
    match doc
    case Some(d) => UpdateDevicesField(WithoutCurrentDevice(GetDevices(d)))
    case None => SetDocument(CreateUserDevices(userId, None))
  }

  /** The `updateDevice` transaction body: reads the snapshot and upserts this device. */
  method UpdateDeviceBody(doc: Option<Doc>, userId: UserId, token: Option<Token>) returns (w: TxWrite)
    ensures w == UpdateDeviceWrite(doc, userId, token)
  {
    if doc.Some? {
      var devices := GetDevices(doc.value);
      var contains := ContainsCurrentDevice(devices);
      if contains {
        var list := new Device[|devices|](i requires 0 <= i < |devices| => devices[i]);
        assert list[..] == devices;
        UpdateCurrentDevice(list, token);
        devices := list[..];
      } else {
        devices := devices + [CreateCurrentDevice(token)];
      }
      w := UpdateDevicesField(devices);
    } else {
      w := SetDocument(CreateUserDevices(userId, token));
    }
  }

  /** The `deleteDevice` transaction body: reads the snapshot and filters this device out. */
  method DeleteDeviceBody(doc: Option<Doc>, userId: UserId) returns (w: TxWrite)
    ensures w == DeleteDeviceWrite(doc, userId)
  {
    if doc.Some? {
      var devices := GetDevices(doc.value);
      devices := RemoveCurrentDevice(devices);
      w := UpdateDevicesField(devices);
    } else {
      w := SetDocument(CreateUserDevices(userId, None));
    }
  }

  /** `updateDevice(userId, token)` run as one atomic transaction. */
  function UpdateDevice(store: Store, userId: UserId, token: Option<Token>): (r: Store)
    ensures r.Keys == store.Keys + {userId}
    ensures forall v :: v in store && v != userId ==> r[v] == store[v]
  {
    Commit(store, userId, UpdateDeviceWrite(Lookup(store, userId), userId, token))
  }

  /** `deleteDevice(userId)` run as one atomic transaction. */
  function DeleteDevice(store: Store, userId: UserId): (r: Store)
    ensures r.Keys == store.Keys + {userId}
    ensures forall v :: v in store && v != userId ==> r[v] == store[v]
  {
    Commit(store, userId, DeleteDeviceWrite(Lookup(store, userId), userId))
  }

  /** Upsert, match case: every entry for this device gets the new token in place;
      the list keeps its length and order and the document its other fields. */
  lemma UpdatePatchesExistingDevice(store: Store, userId: UserId, token: Option<Token>)
    requires userId in store && HasCurrentDevice(GetDevices(store[userId]))
    ensures var r := UpdateDevice(store, userId, token)[userId];
      var old_ := GetDevices(store[userId]);
      r.userId == store[userId].userId && r.devices.Some? &&
      |r.devices.value| == |old_| &&
      (forall i :: 0 <= i < |old_| && !IsCurrent(old_[i]) ==> r.devices.value[i] == old_[i]) &&
      (forall i :: 0 <= i < |old_| && IsCurrent(old_[i]) ==>
         r.devices.value[i] == old_[i][FcmTokenField := token])
  {
  }

  /** Upsert, no-match case: a record for this device is appended at the end. */
  lemma UpdateAppendsNewDevice(store: Store, userId: UserId, token: Option<Token>)
    requires userId in store && !HasCurrentDevice(GetDevices(store[userId]))
    ensures var r := UpdateDevice(store, userId, token)[userId];
      r.userId == store[userId].userId &&
      r.devices == Some(GetDevices(store[userId]) + [CreateCurrentDevice(token)])
  {
  }

  /** Upsert, missing document: it is created holding only this device, or no
      device at all when the token is null. */
  lemma UpdateCreatesDocument(store: Store, userId: UserId, token: Option<Token>)
    requires userId !in store
    ensures UpdateDevice(store, userId, token)[userId] == CreateUserDevices(userId, token)
  {
  }

  /** After a write with a token, the document exists, lists this device, and every
      entry for this device carries that token. */
  lemma UpdateRegistersToken(store: Store, userId: UserId, token: Token)
    ensures var r := UpdateDevice(store, userId, Some(token))[userId];
      var ds := GetDevices(r);
      HasCurrentDevice(ds) &&
      forall i :: 0 <= i < |ds| && IsCurrent(ds[i]) ==> Get(ds[i], FcmTokenField) == Some(token)
  {
    var r := UpdateDevice(store, userId, Some(token))[userId];
    var ds := GetDevices(r);
    if userId in store {
      var old_ := GetDevices(store[userId]);
      if HasCurrentDevice(old_) {
        PatchKeepsCurrentDevice(old_, Some(token));
      } else {
        assert IsCurrent(ds[|old_|]);
      }
    } else {
      assert IsCurrent(ds[0]);
    }
  }

  /** Writing the same non-null token twice is writing it once. */
  lemma UpdateIdempotent(store: Store, userId: UserId, token: Token)
    ensures UpdateDevice(UpdateDevice(store, userId, Some(token)), userId, Some(token))
         == UpdateDevice(store, userId, Some(token))
  {
    var once := UpdateDevice(store, userId, Some(token));
    UpdateRegistersToken(store, userId, token);
    var ds := GetDevices(once[userId]);
    var twice := WithToken(ds, Some(token));
    forall i | 0 <= i < |ds| ensures twice[i] == ds[i] {
      if IsCurrent(ds[i]) {
        assert Get(ds[i], FcmTokenField) == Some(token);
        assert twice[i] == ds[i][FcmTokenField := Some(token)];
      }
    }
    assert twice == ds;
  }

  /** With a null token the write is not idempotent: on a missing document the first
      write creates an empty device list, the second appends a record. */
  lemma NullTokenUpdateNotIdempotent(store: Store, userId: UserId)
    requires userId !in store
    ensures GetDevices(UpdateDevice(store, userId, None)[userId]) == []
    ensures GetDevices(UpdateDevice(UpdateDevice(store, userId, None), userId, None)[userId])
         == [CreateCurrentDevice(None)]
  {
  }

  /** After a delete the document exists and no entry describes this device; the
      other entries are exactly those that were there, in their order. */
  lemma DeleteRemovesDevice(store: Store, userId: UserId)
    ensures var r := DeleteDevice(store, userId)[userId];
      var ds := GetDevices(r);
      r.devices.Some? && !HasCurrentDevice(ds) &&
      ds == WithoutCurrentDevice(GetDevices(Lookup(store, userId).GetOr(Doc(None, None)))) &&
      r.userId == (if userId in store then store[userId].userId else Some(userId))
  {
    var r := DeleteDevice(store, userId)[userId];
    if userId in store {
      NoCurrentDeviceAfterRemoval(GetDevices(store[userId]));
    }
  }

  /** Deleting twice is deleting once. */
  lemma DeleteIdempotent(store: Store, userId: UserId)
    ensures DeleteDevice(DeleteDevice(store, userId), userId) == DeleteDevice(store, userId)
  {
    if userId in store {
      WithoutCurrentDeviceIdempotent(GetDevices(store[userId]));
    }
  }

  /** A delete after a write leaves the store as the delete alone would have: the
      write touches only this device's entries, and the delete drops them all. */
  lemma DeleteUndoesUpdate(store: Store, userId: UserId, token: Option<Token>)
    ensures DeleteDevice(UpdateDevice(store, userId, token), userId) == DeleteDevice(store, userId)
  {
    if userId in store {
      var ds := GetDevices(store[userId]);
      if HasCurrentDevice(ds) {
        WithoutCurrentDeviceAfterPatch(ds, token);
      } else {
        var cur := CreateCurrentDevice(token);
        assert GetDevices(UpdateDevice(store, userId, token)[userId]) == ds + [cur];
        WithoutCurrentDeviceAppend(ds, [cur]);
        assert WithoutCurrentDevice([cur]) == [] by {
          assert [cur][..0] == [];
        }
        assert WithoutCurrentDevice(ds + [cur]) == WithoutCurrentDevice(ds);
        var mid := UpdateDevice(store, userId, token);
        assert mid[userId] == store[userId].(devices := Some(ds + [cur]));
        assert DeleteDeviceWrite(Lookup(mid, userId), userId) == UpdateDevicesField(WithoutCurrentDevice(ds));
      }
    } else if token.Some? {
      assert WithoutCurrentDevice([CreateCurrentDevice(token)]) == [] by {
        assert [CreateCurrentDevice(token)][..0] == [];
      }
    }
  }
}
