# Firebase device store: a Dafny model

This project models the device-registration synchronizer of the Android
library `FirebaseDeviceStore`. The library keeps, for each signed-in user, a
document `{devices: [...], userId}` in a Firestore collection. Each entry of
`devices` is a string map describing one physical device (`deviceId`,
`fcmToken`, `name`, `os`, `type`). The library caches the signed-in user, the
push (FCM) token and a subscription flag, and reacts to the host's
`subscribe` / `unsubscribe` / `signOut` calls, to the completion of its token
request, to auth state changes and to token rotation broadcasts.

The model has four modules:

- `Wrappers` (`wrappers.dfy`): `Option`, which stands for a Java reference that
  may be null, and `Outcome`, a call that returns or throws.
- `Devices` (`devices.dfy`): device records as `map<string, Option<string>>`
  (Java maps may hold null values), the user document, and the three list
  operations as loop methods. `ContainsCurrentDevice` scans. `RemoveCurrentDevice`
  builds a filtered copy. `UpdateCurrentDevice` patches an `array` in place.
  Each is proved equal to a specification function, and lemmas about those
  functions state the list properties.
- `Transactions` (`transactions.dfy`): the store as `map<UserId, Doc>`; a user
  without a key has no document. The two transaction bodies are methods that
  return the write they issue: either `transaction.update` of the `devices`
  field or `transaction.set` of the whole document. Each is proved equal to a
  function. `UpdateDevice` / `DeleteDevice` apply a transaction atomically to
  the store. Lemmas state the upsert, the removal, idempotence and
  delete-after-write.
- `Sync` (`sync.dfy`): the class `FirebaseDeviceStore` with the fields
  `subscribed`, `currentUser`, `currentToken` and the listener handle. Its
  methods are the five entry points. The environment arrives as parameters:
  the auth user, notification permission, and fetched or broadcast tokens. A
  ghost log `effects` records every platform call in order: device write,
  device delete, token request, listener add and listener remove. `Perform`
  runs a logged write or delete as its transaction against the store.

Behaviour of the code that the model keeps:

- `TokenReceiver.onReceive` evaluates `(token == null && currentToken != null ||
  !token.equals(currentToken)) && currentUser != null`. A null token while no
  token is cached reaches `token.equals` and throws a `NullPointerException`,
  even when no user is cached. The model returns `Fail(NullPointer)` and
  changes nothing.
- A null broadcast token while a token and a user are cached issues a device
  write with a null token.
- A write with a null token to a missing document creates it with an empty
  device list. A second such write appends a record whose token is null
  (`NullTokenUpdateNotIdempotent`).
- A delete on a missing document creates it with an empty device list.
- When a user signs in after `subscribe` and the auth callback fires before the token request completes, this device is not registered for that user until the user next signs in or the host subscribes again (`AuthBeforeTokenLosesRegistration`).

The model follows the code as written:
- devices are a list rewritten by a read-modify-write transaction, not a map
  keyed by device id;
- a delete on a missing document re-creates it;
- `signOut` returns nothing.

## Model

| member | source | states |
|---|---|---|
| `Devices.CreateCurrentDevice` | src/main/java/com/csfrequency/firebase/devicestore/FirebaseDeviceStore.java:223-232 | the new record is recognised as this device, carries the given token, and has exactly the five record fields with the fixed OS and type |
| `Devices.CreateUserDevices` | src/main/java/com/csfrequency/firebase/devicestore/FirebaseDeviceStore.java:234-240 | a fresh document belongs to the user and lists no device for a null token, otherwise exactly this device with that token |
| `Devices.GetDevices` | src/main/java/com/csfrequency/firebase/devicestore/FirebaseDeviceStore.java:246-252 | a missing or null `devices` field reads as the empty list |
| `Devices.WithToken` | src/main/java/com/csfrequency/firebase/devicestore/FirebaseDeviceStore.java:287-294 | patching keeps the list length; other devices' entries are unchanged; each entry for this device keeps its other keys and values and now carries the token |
| `Devices.ContainsCurrentDevice` | src/main/java/com/csfrequency/firebase/devicestore/FirebaseDeviceStore.java:213-221 | returns true exactly when some entry's `deviceId` is this device's id |
| `Devices.RemoveCurrentDevice` | src/main/java/com/csfrequency/firebase/devicestore/FirebaseDeviceStore.java:275-285 | returns the list with every entry for this device removed, the rest in order |
| `Devices.UpdateCurrentDevice` | src/main/java/com/csfrequency/firebase/devicestore/FirebaseDeviceStore.java:287-294 | after the in-place loop the array equals the token-patched list |
| `Devices.WithoutCurrentDeviceMembers` | src/main/java/com/csfrequency/firebase/devicestore/FirebaseDeviceStore.java:279-283 | an entry survives removal if and only if it was in the list and is not this device |
| `Devices.NoCurrentDeviceAfterRemoval` | src/main/java/com/csfrequency/firebase/devicestore/FirebaseDeviceStore.java:275-285 | no entry for this device remains after removal |
| `Devices.WithoutCurrentDeviceAppend` | src/main/java/com/csfrequency/firebase/devicestore/FirebaseDeviceStore.java:279-283 | removal distributes over concatenation, so surviving entries keep their relative order |
| `Devices.WithoutCurrentDeviceIdempotent` | src/main/java/com/csfrequency/firebase/devicestore/FirebaseDeviceStore.java:275-285 | removing twice equals removing once |
| `Devices.WithoutCurrentDeviceNoMatch` | src/main/java/com/csfrequency/firebase/devicestore/FirebaseDeviceStore.java:275-285 | a list without this device is unchanged by removal |
| `Devices.WithoutCurrentDeviceAfterPatch` | src/main/java/com/csfrequency/firebase/devicestore/FirebaseDeviceStore.java:287-294 | patching the token changes nothing that removal keeps |
| `Devices.PatchKeepsCurrentDevice` | src/main/java/com/csfrequency/firebase/devicestore/FirebaseDeviceStore.java:287-294 | the list holds this device after patching if and only if it did before |
| `Transactions.Commit` | src/main/java/com/csfrequency/firebase/devicestore/FirebaseDeviceStore.java:203-206 | committing a transaction's write changes no other user's document and creates none but the target's |
| `Transactions.UpdateDeviceBody` | src/main/java/com/csfrequency/firebase/devicestore/FirebaseDeviceStore.java:187-210 | the `updateDevice` transaction body issues exactly the specified write: patch if the device is listed, append if not, create the document if absent |
| `Transactions.DeleteDeviceBody` | src/main/java/com/csfrequency/firebase/devicestore/FirebaseDeviceStore.java:159-179 | the `deleteDevice` transaction body issues exactly the specified write: the filtered list, or a fresh empty document if absent |
| `Transactions.UpdateDevice` | src/main/java/com/csfrequency/firebase/devicestore/FirebaseDeviceStore.java:182-211 | the atomic update leaves the user's document existing and every other user's document unchanged |
| `Transactions.DeleteDevice` | src/main/java/com/csfrequency/firebase/devicestore/FirebaseDeviceStore.java:153-180 | the atomic delete leaves the user's document existing and every other user's document unchanged |
| `Transactions.UpdatePatchesExistingDevice` | src/main/java/com/csfrequency/firebase/devicestore/FirebaseDeviceStore.java:193-203 | with this device listed, every entry for it gets the new token; length, order, other entries and `userId` are unchanged |
| `Transactions.UpdateAppendsNewDevice` | src/main/java/com/csfrequency/firebase/devicestore/FirebaseDeviceStore.java:193-203 | with this device not listed, a record for it is appended at the end |
| `Transactions.UpdateCreatesDocument` | src/main/java/com/csfrequency/firebase/devicestore/FirebaseDeviceStore.java:204-206 | a missing document is created as `{devices: [this device], userId}`, or with no device for a null token |
| `Transactions.UpdateRegistersToken` | src/main/java/com/csfrequency/firebase/devicestore/FirebaseDeviceStore.java:187-210 | after a write with a token, this device is listed and every entry for it carries that token |
| `Transactions.UpdateIdempotent` | src/main/java/com/csfrequency/firebase/devicestore/FirebaseDeviceStore.java:187-210 | writing the same non-null token twice equals writing it once |
| `Transactions.NullTokenUpdateNotIdempotent` | src/main/java/com/csfrequency/firebase/devicestore/FirebaseDeviceStore.java:200-205 | with a null token on a missing document, the first write lists no device and the second appends a null-token record |
| `Transactions.DeleteRemovesDevice` | src/main/java/com/csfrequency/firebase/devicestore/FirebaseDeviceStore.java:159-179 | after a delete the document exists, has no entry for this device, keeps the other entries in order, and keeps or sets `userId` |
| `Transactions.DeleteIdempotent` | src/main/java/com/csfrequency/firebase/devicestore/FirebaseDeviceStore.java:159-179 | deleting twice equals deleting once |
| `Transactions.DeleteUndoesUpdate` | src/main/java/com/csfrequency/firebase/devicestore/FirebaseDeviceStore.java:153-211 | a delete after any write gives the same store as the delete alone |
| `Sync.Perform` | src/main/java/com/csfrequency/firebase/devicestore/FirebaseDeviceStore.java:153-211 | a logged write or delete changes only its own user's document; the other platform calls change no document |
| `Sync.AuthBeforeTokenLosesRegistration` | src/main/java/com/csfrequency/firebase/devicestore/FirebaseDeviceStore.java:96-130 | when the auth callback for a user signing in after `subscribe` comes before the token, no device write is issued by these calls: the user stays uncached and a later rotation does not write either |
| `Sync.SubscribeThenFetchRegisters` | src/main/java/com/csfrequency/firebase/devicestore/FirebaseDeviceStore.java:91-104 | subscribing with a signed-in user and then receiving the token logs exactly one device write, and running it leaves the user's document listing this device with that token |
| `Sync.UnsubscribeSilencesLateCallbacks` | src/main/java/com/csfrequency/firebase/devicestore/FirebaseDeviceStore.java:141-151 | after `unsubscribe`, a late token completion, a token rotation and a sign-out log no device call; the late token is only cached |
| `Sync.FirebaseDeviceStore.constructor` | src/main/java/com/csfrequency/firebase/devicestore/FirebaseDeviceStore.java:52-55 | the store starts unsubscribed with no cached user or token, holding no listener |
| `Sync.FirebaseDeviceStore.SignOut` | src/main/java/com/csfrequency/firebase/devicestore/FirebaseDeviceStore.java:71-78 | issues a delete for the cached user only when a user and a token are cached; always leaves `currentUser` null; token, flag and listener unchanged |
| `Sync.FirebaseDeviceStore.Subscribe` | src/main/java/com/csfrequency/firebase/devicestore/FirebaseDeviceStore.java:80-139 | already subscribed: nothing changes; notifications disabled: throws and state stays; otherwise subscribes, adopts the auth user, requests the token, registers one listener |
| `Sync.FirebaseDeviceStore.OnTokenFetched` | src/main/java/com/csfrequency/firebase/devicestore/FirebaseDeviceStore.java:96-109 | on success caches the token and writes for the cached user exactly when token and user are non-null; on failure changes nothing |
| `Sync.FirebaseDeviceStore.OnAuthStateChanged` | src/main/java/com/csfrequency/firebase/devicestore/FirebaseDeviceStore.java:113-135 | a new auth user with no cached user and a cached token is adopted with one write; a signed-out auth user with a cached user clears it without a delete; otherwise nothing changes; it runs only while the listener is registered |
| `Sync.FirebaseDeviceStore.Unsubscribe` | src/main/java/com/csfrequency/firebase/devicestore/FirebaseDeviceStore.java:141-151 | afterwards unsubscribed, no listener, no cached user or token, whatever the state before, so a second call yields the same state; the listener is removed only if held |
| `Sync.FirebaseDeviceStore.OnTokenReceived` | src/main/java/com/csfrequency/firebase/devicestore/FirebaseDeviceStore.java:301-318 | unsubscribed: nothing changes; subscribed: throws with nothing changed on a null token when none is cached, otherwise caches the token and writes for a cached user exactly when the token differs from the cached one |

The class methods keep `Valid()`: a listener handle is held exactly while
subscribed, and a user is cached only while subscribed. The auth state
callback can run only while its listener is registered. So while unsubscribed,
`SignOut`, `OnTokenFetched`, `OnTokenReceived` and `Unsubscribe` issue no
device call. A late token-fetch completion after `unsubscribe` only caches the
token.

## Left out

- `FDSMessagingService.java` is not part of this model; it only forwards a rotated token as a local broadcast, which is platform plumbing.
- Firebase calls are replaced by the effect log. Listener registration, `getInstanceId`, and `runTransaction` with its retries and conflict handling are not modelled. Each transaction is one atomic step of the store (`Sync.Perform`), and each asynchronous completion is an explicit method call.
- Callbacks are serialised method calls that may come in any order, so the bad order of token-fetch completion and the first auth callback is covered (`Sync.AuthBeforeTokenLosesRegistration`). True interleaving within one callback, and writes still in flight after `unsubscribe`, are not modelled.
- `getDeviceId`, `getDeviceName` and `getOS` are platform queries. They are fixed constant strings (`CurrentDeviceId`, `DeviceName`, `Os`). A null Android id is not modelled.
- Notification permission is a boolean parameter of `Subscribe`. The auth user is a parameter of `Subscribe` and `OnAuthStateChanged`. A user is its uid.
- Logging, the broadcast receiver registration in the constructor, `collectionPath` and `userRef` path construction are not modelled. Documents of different users are simply different keys.
- Device maps are values. Aliasing between the transaction's list and the snapshot's maps is not modelled. A document has only the `devices` and `userId` fields. A `devices` field of the wrong type (a cast failure) is not modelled.
