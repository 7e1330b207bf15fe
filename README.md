# ScrollCaptureResponse, modelled in Dafny

This project models `android.view.ScrollCaptureResponse` from the Android
framework (`base/core/java/android/view/ScrollCaptureResponse.java`). The class
is the result of a scroll-capture request. It has three parts:

- **The Parcel codec.** `writeToParcel` writes a presence-flag byte, then the
  description, then each optional field that is not null, then the message
  list. The Parcel constructor reads the same layout back. It reads an
  optional field only when that field's flag bit is set.
- **The single-use `Builder`.** Each setter records a bit in `mBuilderFieldsSet`.
  `build()` sets the "used" bit 0x40, fills in defaults for the fields never
  set, and constructs the response. After that, `checkNotUsed` makes every
  setter and `build()` throw `IllegalStateException`.
- **The connection lifecycle.** `isConnected()` and `close()`.

Files:

- `wrappers.dfy` (module `Wrappers`): `Option`. It stands for Java's nullable
  references and for reads that can fail.
- `parcel.dfy` (module `Parcels`): a Parcel as a stream of tagged tokens.
  - The token kinds are a byte, a string, a binder handle, a typed `Rect` and a
    string list.
  - `Parcel` is a class holding the written tokens and a read position. It has
    one write method and one read method per token kind.
- `response.dfy` (module `ScrollCapture`):
  - `Fields` holds the six field values.
  - `FlagByte`, `Encode` and `Decode` are the pure codec, with the lemmas that
    relate them.
  - `MessageList` stands for the mutable `ArrayList<String>`, which is shared by
    reference.
  - `ScrollCaptureResponse` is the class. Its methods are the constructor,
    `WriteToParcel`, `FromParcel`, `IsConnected` and `Close`. Only the
    connection is reassigned after construction, so the other fields are
    `const`.
- `builder.dfy` (module `ScrollCaptureBuilder`):
  - `BuilderState` is the builder's fields, and `Apply` is one call on it. The
    outcome of a call is `Done`, `Built(fields)` or `IllegalState`, which stands
    for the exception.
  - `Run` applies a sequence of calls. The lemmas are stated over such
    sequences.
  - The `Builder` class is proved to follow `Apply`, one method per Java method.

Behaviour worth knowing, as the code is written:

- `addMessage` calls `checkNotUsed` only when its list is still null, through
  `setMessages`. `build()` always leaves the list non-null. So `addMessage` after
  `build()` never throws.
- `addMessage` after `build()` appends to the list the built response holds. The
  response keeps the builder's `ArrayList` by reference. `Builder.Build` states
  this sharing (`r.messages == messages`). `AfterBuild` proves that this is the
  only effect any call can still have once the builder is used.
- The field comment at line 37 says the remaining fields are non-null while
  `isConnected()` is true. Neither the constructor nor the builder enforces
  this: `ConnectedWithoutBounds` builds a response with a connection and null
  bounds and title. The code that fills in a response must keep that promise.

## Model

| member | source | states |
|---|---|---|
| `ScrollCapture.FlagByte` | base/core/java/android/view/ScrollCaptureResponse.java:185-189 | Bit 0x2 is set iff there is a connection, 0x4 iff windowBounds is non-null, 0x8 iff boundsInWindow is non-null, and 0x10 iff windowTitle is non-null. No other bit is ever set, 0x1 included. |
| `ScrollCapture.Encode` | base/core/java/android/view/ScrollCaptureResponse.java:181-197 | The written stream holds 3 tokens plus one per set flag bit. It starts with the flag byte and the description and ends with the message list. |
| `ScrollCapture.TakeConnectionIf` | base/core/java/android/view/ScrollCaptureResponse.java:212 | The binder is read only when bit 0x2 is set, and the connection is non-null exactly then. With the bit clear, nothing is consumed and the connection is null. |
| `ScrollCapture.TakeRectIf` | base/core/java/android/view/ScrollCaptureResponse.java:213-214 | A typed `Rect` is read only when the field's bit is set, and the field is non-null exactly then. With the bit clear, nothing is consumed. |
| `ScrollCapture.TakeTitleIf` | base/core/java/android/view/ScrollCaptureResponse.java:215 | The title string is read only when bit 0x10 is set, and the title is non-null exactly then. With the bit clear, nothing is consumed. |
| `ScrollCapture.Decode` | base/core/java/android/view/ScrollCaptureResponse.java:210-217 | What the Parcel constructor reads. A successful read starts with the flag byte and then the description string, and each optional field is non-null exactly when its flag bit is set. |
| `ScrollCapture.EncodeDecode` | base/core/java/android/view/ScrollCaptureResponse.java:181-231 | Round trip: reading back what `writeToParcel` wrote gives the same six fields, whatever follows in the parcel. The read stops exactly after the written tokens. |
| `ScrollCapture.DecodeAlignment` | base/core/java/android/view/ScrollCaptureResponse.java:210-217 | For any stream the reader accepts, each optional field is read exactly when its flag bit is set. The reader consumes 3 tokens plus the number of set bits. It takes the message list from position 2 plus the number of set bits. |
| `ScrollCapture.DecodeEncode` | base/core/java/android/view/ScrollCaptureResponse.java:185-217 | Converse round trip: a stream whose flag byte has no bit outside 0x2..0x10 is exactly the encoding of what it decodes to, followed by the unread tokens. |
| `ScrollCapture.ReadConnectionIf` | base/core/java/android/view/ScrollCaptureResponse.java:212 | The connection is read from a binder token only when its bit is set. Otherwise it is null and nothing is consumed. |
| `ScrollCapture.ReadRectIf` | base/core/java/android/view/ScrollCaptureResponse.java:213-214 | A `Rect` token is consumed only when the field's bit is set. Otherwise the field is null. |
| `ScrollCapture.ReadTitleIf` | base/core/java/android/view/ScrollCaptureResponse.java:215 | A string token is consumed for the window title only when bit 0x10 is set. |
| `ScrollCapture.ReadFields` | base/core/java/android/view/ScrollCaptureResponse.java:210-217 | The step-by-step reads agree with `Decode`. They yield the decoded fields and leave the parcel positioned just after them, or fail on a token of the wrong kind. |
| `ScrollCapture.ScrollCaptureResponse.FromParcel` | base/core/java/android/view/ScrollCaptureResponse.java:206-231 | The Parcel constructor builds a fresh response with a fresh message list. Its fields equal what `Decode` reads from the unread part of the parcel. |
| `ScrollCapture.ScrollCaptureResponse.WriteToParcel` | base/core/java/android/view/ScrollCaptureResponse.java:181-197 | The flag byte is accumulated with `\|=`. The parcel grows by exactly `Encode` of the response's current fields, and its read position is unchanged. |
| `ScrollCapture.ScrollCaptureResponse.constructor` | base/core/java/android/view/ScrollCaptureResponse.java:94-113 | The package-private constructor stores its six arguments. The message list is kept by reference. |
| `ScrollCapture.ScrollCaptureResponse.IsConnected` | base/core/java/android/view/ScrollCaptureResponse.java:62-64 | True exactly when a connection is held and its binder is alive: never with no connection, and always with a live one. `live` stands for the binders that are still alive. |
| `ScrollCapture.ScrollCaptureResponse.Close` | base/core/java/android/view/ScrollCaptureResponse.java:67-76 | Afterwards there is no connection and `IsConnected` is false for every liveness. Every other field is unchanged, so a second `close()` changes nothing. |
| `ScrollCaptureBuilder.NewBuilder` | base/core/java/android/view/ScrollCaptureResponse.java:254-264 | A new builder is well formed and not used. |
| `ScrollCaptureBuilder.Apply` | base/core/java/android/view/ScrollCaptureResponse.java:270-343 | Every call, the throwing ones included, keeps the builder invariant. Bits 0x1, 0x4, 0x8, 0x10 and 0x20 each mean that field holds a value; 0x2 does not, since `setConnection(null)` is allowed. Before `build()`, the list is non-null iff bit 0x20 is set. After `build()`, description and messages are non-null. |
| `ScrollCaptureBuilder.ApplyWhenUsed` | base/core/java/android/view/ScrollCaptureResponse.java:373-377 | On a used builder, every setter and `build()` yields `IllegalStateException` and leaves all builder fields unchanged. |
| `ScrollCaptureBuilder.ApplyWhenUnused` | base/core/java/android/view/ScrollCaptureResponse.java:270-343 | On an unused builder no call throws. Each call ORs its own bit into the mask: 0x1, 0x2, 0x4, 0x8, 0x10 or 0x20 (0x20 for `addMessage` too), and 0x40 for `build()`. |
| `ScrollCaptureBuilder.ApplyUsed` | base/core/java/android/view/ScrollCaptureResponse.java:341-343 | Only `build()` sets the used bit, and no call clears it. |
| `ScrollCaptureBuilder.WithDefaults` | base/core/java/android/view/ScrollCaptureResponse.java:345-362 | The mask is kept, and every field whose bit is set keeps the builder's value. On a well-formed builder, description and messages come out non-null. A used builder stays well formed. |
| `ScrollCaptureBuilder.BuildStep` | base/core/java/android/view/ScrollCaptureResponse.java:341-370 | A `build()` that succeeds always produces a response and leaves the builder used and well formed. |
| `ScrollCaptureBuilder.Run` | base/core/java/android/view/ScrollCaptureResponse.java:252-379 | Any sequence of calls keeps the builder invariant. The builder ends up used iff it started used or the sequence contains `build()`. |
| `ScrollCaptureBuilder.AfterBuild` | base/core/java/android/view/ScrollCaptureResponse.java:334-343 | Single use: after `build()`, every later setter or `build()` throws and changes nothing. Over any sequence of later calls, the only change is that the `addMessage` values are appended to the shared list. |
| `ScrollCaptureBuilder.RecordedBitsMatch` | base/core/java/android/view/ScrollCaptureResponse.java:270-337 | From a new builder, bit 0x1, 0x4, 0x8 or 0x10 is set iff a setter gave that field a value. A clear 0x2 means the connection is still null. A clear 0x20 means the calls leave an empty message list. The used bit stays clear. |
| `ScrollCaptureBuilder.BuildCarriesLastSet` | base/core/java/android/view/ScrollCaptureResponse.java:345-369 | The built response carries exactly the last value given to each field. Fields never set get their defaults: `""`, null, or the empty list. The list is the last `setMessages` list followed by the later `addMessage` values. |
| `ScrollCaptureBuilder.BuildDefaults` | base/core/java/android/view/ScrollCaptureResponse.java:345-362 | `build()` on a fresh builder gives description `""`, a null connection, null bounds and title, and an empty message list. |
| `ScrollCaptureBuilder.ConnectedWithoutBounds` | base/core/java/android/view/ScrollCaptureResponse.java:37 | For every connection, `setConnection` followed by `build()` yields a response that holds the connection while its bounds and title are null. So the promise that the remaining fields are non-null while connected is not kept by the class. |
| `ScrollCaptureBuilder.Builder.constructor` | base/core/java/android/view/ScrollCaptureResponse.java:261-264 | A new `Builder` object starts as `NewBuilder()`: mask 0 and every field null. |
| `ScrollCaptureBuilder.Builder.CheckNotUsed` | base/core/java/android/view/ScrollCaptureResponse.java:373-378 | Throws exactly when the used bit 0x40 is set. |
| `ScrollCaptureBuilder.Builder.SetDescription` | base/core/java/android/view/ScrollCaptureResponse.java:270-275 | Follows `Apply`: it throws when used; otherwise it records 0x1 and stores the value. |
| `ScrollCaptureBuilder.Builder.SetConnection` | base/core/java/android/view/ScrollCaptureResponse.java:281-286 | Follows `Apply`: it throws when used; otherwise it records 0x2 and stores the value, which may be null. |
| `ScrollCaptureBuilder.Builder.SetWindowBounds` | base/core/java/android/view/ScrollCaptureResponse.java:292-297 | Follows `Apply`: it throws when used; otherwise it records 0x4 and stores the value. |
| `ScrollCaptureBuilder.Builder.SetBoundsInWindow` | base/core/java/android/view/ScrollCaptureResponse.java:303-308 | Follows `Apply`: it throws when used; otherwise it records 0x8 and stores the value. |
| `ScrollCaptureBuilder.Builder.SetWindowTitle` | base/core/java/android/view/ScrollCaptureResponse.java:314-319 | Follows `Apply`: it throws when used; otherwise it records 0x10 and stores the value. |
| `ScrollCaptureBuilder.Builder.SetMessages` | base/core/java/android/view/ScrollCaptureResponse.java:325-330 | Follows `Apply`: it throws when used; otherwise it records 0x20 and keeps the caller's list by reference. |
| `ScrollCaptureBuilder.Builder.AddMessage` | base/core/java/android/view/ScrollCaptureResponse.java:334-338 | Follows `Apply`. A null list is first replaced through `setMessages`, which may throw. Otherwise the value is appended in place to the same list, and the other fields are untouched. |
| `ScrollCaptureBuilder.Builder.FillDefaults` | base/core/java/android/view/ScrollCaptureResponse.java:345-362 | Each field whose bit is clear gets its default: `""`, null, or a fresh empty list. The mask is unchanged. |
| `ScrollCaptureBuilder.Builder.Build` | base/core/java/android/view/ScrollCaptureResponse.java:341-371 | Follows `Apply`. A used builder yields nothing and is unchanged. Otherwise it returns a fresh response whose fields are the built values and which shares the builder's message list. |

## Left out

- Binder liveness (`asBinder().isBinderAlive()`): an IPC query. It is the parameter `live` (the set of live binder handles) of `IsConnected`.
- The remote `mConnection.close()` call and the `RemoteException` it may throw and the code ignores: foreign IPC. `Close` models it as having no effect on the response.
- The byte layout of a Parcel, and the internals of `writeTypedObject`/`readTypedObject`, `writeStrongInterface`/`readStrongBinder` and `writeStringList`/`readStringList`. Each value travels as one typed token, and a `Rect` is passed through unchanged.
- Malformed parcels: a real Parcel reinterprets whatever bytes come next, while the token model has no such bytes. `Decode` fails (None) on a token of the wrong kind, and `FromParcel` then returns null in place of whatever exception or garbage Android would produce.
- Null values in a parcel: a token carries only a non-null string, binder or `Rect`, while `readString`, `readStrongBinder` and `readTypedObject` can each return null. So two cases are not modelled. A set flag bit followed by a null value gives a null field in Java. A null description makes the Parcel constructor's `AnnotationValidations` check throw `NullPointerException`. `Decode`'s presence iff, `DecodeAlignment` and `DecodeEncode` depend on this restriction.
- `Builder.SetDescription`, `Builder.SetWindowBounds`, `Builder.SetBoundsInWindow`, `Builder.SetWindowTitle`, `Builder.SetMessages`, `Builder.AddMessage`: null arguments to `@NonNull` parameters are not modelled. Those parameters take non-null values, so the `AnnotationValidations` null checks of the package-private constructor can never fail.
- `mBuilderFieldsSet` is a Java `long`. The code only ever sets or tests bits 0x1 to 0x40, so the model keeps it as an 8-bit vector and omits the upper 56 bits, which are always zero.
- Builder setters return `this` for chaining. The model returns the call's outcome instead: `Done`, or `IllegalState` for the `IllegalStateException`. `Build` returns null when it throws.
- The promise of line 37 that the other fields are non-null while connected: the class does not keep it (see `ConnectedWithoutBounds`), so the model states no such invariant.
- `Rect` is a mutable object in Android, and `setWindowBounds`, `setBoundsInWindow`, the constructor and the getters share the caller's instance. The model's `Rect` is an immutable value, so this sharing is not captured; only the message list is modelled by reference.
- `android.os.Parcel` has a single `dataPosition` for both reads and writes. The token `Parcel` keeps a read position apart from the data, and its writes always append at the end.
- Null elements inside the message list: messages are non-null strings.
- The getters: they return the fields as they are, and the model reads the fields directly.
- `toString`, `describeContents`, `CREATOR.newArray` and the `__metadata` stub: generated boilerplate with no behaviour to prove.
