# dmslite remote ability launch, modelled in Dafny

This project models the core of the lite distributed-scheduler service (dmslite):

- The byte-order and marshalling helpers of `include/dmslite_utils.h`.
- The ability-launch adapter `source/adapter/dms/dmslite_famgr.c`.

`endian.dfy` (module `Endian`) covers the byte-order helpers:

- `Convert{16,32,64}DataBig2Little` are pure functions from wire bytes to an unbounded value.
- `Convert{16,32,64}DataLittle2Big` are methods that write a value's host bytes, reversed, into an `array`.
- Both are proved against reference definitions of the two byte orders: `BigEndianValue`, `BigEndianBytes`, `LittleEndianBytes` and `Reversed`.
- The round-trip lemmas connect the two directions.
- Each C shift `(uintN_t)b << bits` never loses bits, so it is `b * 2^bits`. Each `|=` writes into bits that are still zero, so it is an addition.

`marshalling.dfy` (module `Marshalling`) covers the helper macros and DMS_FREE:

- `PACKET_MARSHALL_HELPER` and `RAWDATA_MARSHALL_HELPER` act on the pack module's packet builder. The builder is a class whose state is the list of fields written so far, plus a ghost log of the calls made into it.
- A run of helpers is a fail-fast loop (`MarshallFields`). It is proved to write exactly the fields up to the first failure, clean the build once, and return -1.
- `DMS_FREE` acts on a pointer variable, with the allocator's releases kept as a ghost log.

`famgr.dfy` (module `FaManager`) covers the adapter:

- **State.** Class `DmsFaManager` holds the two file-scope globals, `g_serviceIdentity` and `g_onStartAbilityDone`, and a ghost trace of effects: IPC registration, setter calls, clears, launcher calls, buffer frees and callback firings.
- **Collaborators** are inputs carrying the outcome they would report. These are the IPC runtime, the service registry, the ability manager, the Want and element setters, `memset_s`, `getuid`, the bundle lookup and the session layer.
- **Entry points.** `StartAbilityFromRemote`, its inner launch, `FillWant` and `AmsResultCallback` are methods proved equal to pure specification functions. The lemmas state the file's promises about those functions, for one call and for a whole run of calls:
  - lazy registration;
  - first-wins arming;
  - uid dispatch;
  - the Want cleared exactly once;
  - the buffer always freed first;
  - at most one callback per result.
- **Outbound packet.** `StartRemoteAbility` builds the start-ability packet with the helper chain and sends it. Its contract states the outcome of each path directly, in terms of the field list `StartFaFields` and the helper-chain log.

## Model

| member | source | states |
|---|---|---|
| Endian.Convert16DataBig2Little | include/dmslite_utils.h:95-99 | the two shifted and or-ed bytes equal the big-endian value of the first two input bytes |
| Endian.Convert32DataBig2Little | include/dmslite_utils.h:106-112 | the four shifted and or-ed bytes equal the big-endian value of the first four input bytes |
| Endian.Convert64DataBig2Little | include/dmslite_utils.h:119-129 | the eight shifted and or-ed bytes equal the big-endian value of the first eight input bytes |
| Endian.Convert16DataBig2LittleValue | include/dmslite_utils.h:95-99 | the value built from two wire bytes is `b0*256 + b1`, i.e. the big-endian value of the first two bytes, and is below 2^16 |
| Endian.Convert32DataBig2LittleValue | include/dmslite_utils.h:106-112 | the value built from four wire bytes is the positional sum with weights 2^24, 2^16, 2^8, 1, equals their big-endian value and is below 2^32 |
| Endian.Convert64DataBig2LittleValue | include/dmslite_utils.h:119-129 | the value built from eight wire bytes is their positional sum (weights 2^56 down to 1), equals their big-endian value and is below 2^64 |
| Endian.Convert16DataLittle2Big | include/dmslite_utils.h:136-140 | the two output bytes are the two input bytes in reverse order; no other byte of the output buffer changes |
| Endian.Convert32DataLittle2Big | include/dmslite_utils.h:147-153 | the four output bytes are the four input bytes in reverse order; no other byte of the output buffer changes |
| Endian.Convert64DataLittle2Big | include/dmslite_utils.h:160-170 | the eight output bytes are the eight input bytes in reverse order; no other byte of the output buffer changes |
| Endian.RoundTrip16 | include/dmslite_utils.h:95-140 | a 16-bit value whose host (little-endian) bytes are reversed by Little2Big decodes back to itself with Big2Little; any two wire bytes re-encode to themselves |
| Endian.RoundTrip32 | include/dmslite_utils.h:106-153 | the same round trip in both directions for 32-bit values and four wire bytes |
| Endian.RoundTrip64 | include/dmslite_utils.h:119-170 | the same round trip in both directions for 64-bit values and eight wire bytes |
| Endian.LittleEndianReversedIsBigEndian | include/dmslite_utils.h:131-135 | reversing the little-endian bytes of a value gives its big-endian (wire) bytes, which is what the Little2Big helpers produce on a little-endian host |
| Endian.ReversedTwice | include/dmslite_utils.h:136-140 | applying the byte reversal twice gives the original bytes back |
| Endian.BigEndianValueBound | include/dmslite_utils.h:119-129 | n big-endian bytes denote a value below 256^n, so the result fits the destination type |
| Endian.BigEndianValueInjective | include/dmslite_utils.h:119-129 | two wire strings of the same length that decode to the same value are equal |
| Endian.BigEndianValueBytes | include/dmslite_utils.h:119-129 | re-encoding the decoded value of n wire bytes to n bytes gives the wire bytes back |
| Endian.BigEndianRoundTrip | include/dmslite_utils.h:119-129 | a value below 256^n encoded to n wire bytes decodes back to itself |
| Endian.BigEndianBytesValue | include/dmslite_utils.h:119-129 | decoding the n wire bytes of any value gives that value modulo 256^n (truncation to the width) |
| Marshalling.PacketBuilder.PrepareBuild | source/adapter/dms/dmslite_famgr.c:193-195 | starting a packet empties the field list and logs the call |
| Marshalling.PacketBuilder.Marshall | include/dmslite_utils.h:26 | a Marshall call appends its field exactly when it reports success, and logs the call with its outcome |
| Marshalling.PacketBuilder.CleanBuild | include/dmslite_utils.h:29 | cleaning the build discards every field written and logs the call |
| Marshalling.MarshallHelper | include/dmslite_utils.h:24-42 | one helper aborts (the enclosing function returns -1) exactly when its Marshall call fails, and then cleans the build once; otherwise the field is appended |
| Marshalling.MarshallFields | include/dmslite_utils.h:24-42 | a run of helpers returns 0 exactly when every Marshall succeeds and then holds all fields in order, otherwise -1 with an empty build; the builder log is the fail-fast chain log |
| Marshalling.FirstFailure | include/dmslite_utils.h:27-31 | the index where the chain stops: every outcome before it succeeded and the one at it failed (or it is the length when none failed) |
| Marshalling.HelperChainFailsFast | include/dmslite_utils.h:24-42 | with k the first failing field, exactly the fields 0..k are attempted in order, CleanBuild follows the failure and appears once, and never appears when every field is written |
| Marshalling.Allocator.DmsFree | include/dmslite_utils.h:56-71 | DMS_FREE releases a non-NULL block once and sets the variable to NULL; a NULL variable releases nothing |
| Marshalling.DmsFreeTwice | include/dmslite_utils.h:56-71 | two DMS_FREEs of the same variable release exactly what the first one releases (its block once, or nothing when it was NULL) and leave it NULL: there is no double free |
| Marshalling.HelperChainLog | include/dmslite_utils.h:24-42 | the builder calls made by a run of helpers: at most one more than the number of fields, and a CleanBuild among them exactly when some Marshall call fails |
| FaManager.DmsFaManager.constructor | source/adapter/dms/dmslite_famgr.c:37-42 | the identity starts as handle INVALID_IPC_HANDLE and token INVALID_IPC_TOKEN, with no callback armed |
| FaManager.DmsFaManager.AmsResultCallback | source/adapter/dms/dmslite_famgr.c:44-73 | the IPC buffer is freed first on every path; LITEIPC_EINVAL with nothing fired when no callback is armed or the element cannot be zeroed or decoded; otherwise the element is cleared, the armed callback fires with the mapped code, and LITEIPC_OK is returned |
| FaManager.AsyncResultCode | source/adapter/dms/dmslite_famgr.c:66-70 | ASYNC_SUCCESS exactly when the popped status is EC_SUCCESS, ASYNC_FAILURE exactly when it is not |
| FaManager.ResultDeliveredOnce | source/adapter/dms/dmslite_famgr.c:44-73 | a result delivery always frees the buffer first, succeeds exactly when a callback is armed and the element decodes, and then fires exactly the armed callback once with the mapped code; otherwise it fires none |
| FaManager.GetAmsInterface | source/adapter/dms/dmslite_famgr.c:75-89 | the interface is found exactly when the feature API exists and QueryInterface returns EC_SUCCESS; without the feature API nothing is found |
| FaManager.DmsFaManager.ClearWant | source/adapter/dms/dmslite_famgr.c:140 | ClearWant (also called at lines 109 and 130) empties the Want's element and service identity and records one WantCleared effect |
| FaManager.DmsFaManager.FillWant | source/adapter/dms/dmslite_famgr.c:91-114 | DMS_EC_SUCCESS exactly when both memsets and all four setters succeed, and the Want then holds the element (bundle, ability) and the current identity; on failure the Want is cleared (or untouched when its own memset failed); the setters called are the short-circuit chain |
| FaManager.FillWantShortCircuits | source/adapter/dms/dmslite_famgr.c:103-111 | with k the first failing setter, exactly setters 0..k are called in their order, and the element is cleared on every path after the memsets, the Want only on a setter failure |
| FaManager.FillClearsWantOnFailure | source/adapter/dms/dmslite_famgr.c:103-113 | FillWant clears the Want once when a setter fails after both memsets, and never otherwise |
| FaManager.InnerCode | source/adapter/dms/dmslite_famgr.c:116-148 | the inner result is one of FILL_WANT_FAILURE, GET_ABILITYMS_FAILURE, SYNC_FAILURE, SYNC_SUCCESS; FILL_WANT_FAILURE exactly when the fill fails, GET_ABILITYMS_FAILURE exactly for the foundation uid with a failed lookup, SYNC_SUCCESS exactly when a launcher was reached and returned EC_SUCCESS |
| FaManager.DmsFaManager.StartAbilityFromRemoteInner | source/adapter/dms/dmslite_famgr.c:116-148 | the returned code is the inner result and the effects are those of the fill, then the uid dispatch, then one ClearWant |
| FaManager.UidDispatch | source/adapter/dms/dmslite_famgr.c:124-139 | after a successful fill the foundation uid launches through the AMS interface, the shell uid through the public StartAbility, both with the filled Want, and exactly one launcher call happens then; a foundation uid whose AMS lookup fails launches nothing; any other uid launches nothing and gets SYNC_FAILURE |
| FaManager.WantClearedOnce | source/adapter/dms/dmslite_famgr.c:118-140 | once both memsets succeed, every exit of the inner launch clears the Want exactly once; when a memset fails it is never cleared |
| FaManager.InnerEffectsKinds | source/adapter/dms/dmslite_famgr.c:116-148 | the inner launch never registers with IPC, never frees an IPC buffer and never fires the completion callback |
| FaManager.DmsFaManager.StartAbilityFromRemote | source/adapter/dms/dmslite_famgr.c:150-172 | the new globals, the returned code and the effects are those of the specification: NULL check, registration only while the token is invalid, first-wins arming, then the inner launch |
| FaManager.NullNameHasNoEffect | source/adapter/dms/dmslite_famgr.c:153-156 | a NULL bundle or ability name returns DMS_EC_FAILURE, changes no global and has no effect |
| FaManager.RegistrationOnlyWhileTokenInvalid | source/adapter/dms/dmslite_famgr.c:158-166 | IPC registration is attempted exactly when both names are given and the token is INVALID_IPC_TOKEN; if it fails the call returns REGISTE_IPC_CALLBACK_FAILURE with no global changed, nothing armed and nothing launched |
| FaManager.ArmingIsFirstWins | source/adapter/dms/dmslite_famgr.c:167-169 | an armed callback is kept; an empty slot takes the new callback once the names and the registration are good, whatever the launch then returns |
| FaManager.ArmedCallbackIsPermanent | source/adapter/dms/dmslite_famgr.c:42-172 | once a callback is armed, no sequence of later calls replaces or clears it |
| FaManager.OnlyArmedCallbackFires | source/adapter/dms/dmslite_famgr.c:42-172 | once a callback is armed, every completion fired by any later sequence of calls goes to that callback |
| FaManager.RegistrationIsPermanent | source/adapter/dms/dmslite_famgr.c:37-172 | once the token is valid, no sequence of calls changes the identity or registers with IPC again |
| FaManager.StartFaFields | source/adapter/dms/dmslite_famgr.c:196-204 | the start-ability packet has five fields, tagged command id, callee bundle name, callee ability name, caller signature and DMS version in that order; the callee fields carry the element's names, the signature is the appId or "" when there is none, the command is DMS_MSG_CMD_START_FA and the version DMS_VERSION_VALUE |
| FaManager.StartRemoteAbility | source/adapter/dms/dmslite_famgr.c:180-211 | a missing Want, data or element returns DMS_EC_INVALID_PARAMETER and a failed memset returns DMS_EC_FAILURE, both without touching the builder; otherwise the five fields (command, callee bundle, callee ability, caller signature or "" when there is no appId, version 200) are marshalled fail-fast after PreprareBuild, and the packet is sent (returning the session's status) exactly when all five were written, else -1 with the build cleaned |

## Left out

- The IPC runtime, the service registry and the ability manager are represented by the outcomes they report. So are `memset_s`, the Want/element setters, `DeserializeElement`, `IpcIoPopInt32`, `getuid`, `GetBundleInfo` and `SendDmsMessage`. None of them is modelled.
- The pack module (`dmslite_pack.c`) is not part of this model. The builder keeps the list of fields written, not their byte layout in the packet buffer. `GetPacketBufPtr`/`GetPacketSize` are represented by that field list.
- FaManager.StartRemoteAbility: does not record that `GetBundleInfo` is called with the Want's `data` as the caller's bundle name, because that collaborator's result is an input here.
- FaManager.StartRemoteAbility: models the build without `XTS_SUITE_TEST`. The test build skips `PreprareBuild` and `SendDmsMessage` and returns EOK; that build is left out.
- `StartRemoteAbilityInner` is left out. It is a stub that returns EOK and touches nothing.
- `IsBigEndian` is left out. It inspects the host's memory layout, which has no counterpart in a model of values. The Little2Big helpers are modelled on their byte copies, which do not depend on it.
- `DMS_ALLOC` (malloc/OhosMalloc) and every `HILOG` call are left out. They are allocation and logging, and neither influences control flow.
- Endian.Convert16DataLittle2Big, Convert32DataLittle2Big, Convert64DataLittle2Big: the input is a sequence distinct from the output array. An output buffer that aliases the input bytes is not modelled.
- The DMS_EC_* and LITEIPC_* codes are symbolic constructors: their numeric values are defined in headers outside this model. EC_SUCCESS is 0 and EC_FAILURE is -1. DMS_MSG_CMD_START_FA is fixed at 1, a stand-in for the value its header defines.
- FOUNDATION_UID and SHELL_UID are represented by classifying the caller as foundation, shell or other.
- FaManager.StartRemoteAbility: the element's names are strings, so a NULL `want->element->bundleName` or `abilityName` handed to MarshallString cannot occur in the model; what the pack module does with one is outside this model.
- FaManager.DmsFaManager.FillWant: the Want keeps only its element and service identity.
- The IPC callback is registered with mode ONCE. A run of calls in the model lets AmsResultCallback run any number of times per registration; this over-approximates the runtime, so the properties proved over runs still hold for it.
- FaManager.DmsFaManager.StartAbilityFromRemote: a failed `RegisterIpcCallback` is taken to leave `g_serviceIdentity` unchanged. What the IPC runtime writes into it on failure is outside this model.
- Concurrency is left out. The globals are unsynchronised in the source; the model treats each entry point as one atomic step, and runs of calls as sequential.

### Behaviour of the code worth noting

- A caller uid outside {foundation, shell} is not a distinct "unauthorized" error. The launch is skipped, and the call returns DMS_EC_START_ABILITY_SYNC_FAILURE.
- Parameter checks are NULL checks only. An empty bundle or ability name is accepted.
- When the result element fails to deserialise, AmsResultCallback returns LITEIPC_EINVAL and fires no callback; it does not report an asynchronous failure. The buffer is still freed first.
- The armed completion callback is never cleared after it fires. The first callback ever armed stays armed for all later calls.
- A marshalling failure in StartRemoteAbility returns -1, not a dedicated error code.
