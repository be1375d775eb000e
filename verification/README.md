# PlayIntegrityFix Zygisk module: a verified model

This project models the native Zygisk module of PlayIntegrityFix (`zygisk/jni/zygisk.cpp`). It is written in Dafny and covers three parts of the module.

- **The property rewrite.** `my_hook` replaces `__system_property_read_callback`. It remembers the caller's callback and passes `handle_system_property` to the original in its place. The handler forwards every delivery exactly once to the remembered callback. Only the value of `ro.product.first_api_level` changes: it becomes `"33"`. (module `PropertyHook`)
- **The provisioning channel.** The target process sends the companion process a native `int` holding its data directory's length, followed by the directory's raw bytes. The root companion reads the length and sizes a buffer to it. It reads the path into that buffer, then copies `/data/adb/SNFix.dex` to `path + "/SNFix.dex"`. If the copy succeeds, it makes the copy readable by everyone. It replies with one `bool`. (module `Provisioning`)
- **The specialization gate.** `preAppSpecialize` tells apart three kinds of process: those outside `com.google.android.gms`, other processes inside that namespace, and exactly `com.google.android.gms.unstable`. `postAppSpecialize` then hooks and loads the payload, but only if a directory was kept. `preServerSpecialize` always asks for unload. (module `Gate`; lemmas about the whole specialization event are in module `Lifecycle`)

Modelling choices:
- Strings are byte strings (`Common.Bytes`).
- Function pointers are values of `PropertyHook.Callback`.
- The global `o_callback` is the explicit state `PropertyHook.HookState`.
- The module's `appDir` field is `Gate.GateState`.
- Each callback returns its new state and a trace of effects (`Gate.Effect`): options set, companion connections with the bytes sent, the hook installed, and the payload loaded.
- A number of things outside the module become inputs: the companion's reply, the `DobbySymbolResolver` outcome, the property the original read function delivers, and the `copy_file` outcome (a function from destination path to success).
- Native byte order is little-endian, as on every Android ABI.
- `(int) appDir.size()` is written out as keeping the low 32 bits, read as two's complement. The framing round trip holds exactly for paths of at most 2^31 - 1 bytes.

## Model

| member | source | states |
|---|---|---|
| PropertyHook.HandleSystemProperty | zygisk/jni/zygisk.cpp:17-24 | exactly one call, always to the saved original callback; cookie, name and serial are kept; the value becomes "33" when the name is exactly `ro.product.first_api_level`, and the delivery passes untouched otherwise |
| PropertyHook.MyHook | zygisk/jni/zygisk.cpp:26-29 | the caller's callback becomes the saved original; the original read function is called with the same `pi` and cookie, but with the interposed handler as its callback |
| PropertyHook.HookedRead | zygisk/jni/zygisk.cpp:23-28 | after a read through the hook, the saved pointer holds the caller's callback, and the caller's callback gets exactly one call with the caller's cookie and the property's name and serial |
| PropertyHook.HookedReadForwardsOnce | zygisk/jni/zygisk.cpp:13-29 | a read through the hook reaches the caller's own callback exactly once, with its cookie, name and serial and the rewritten value; for any other key the result is identical to an unhooked read |
| PropertyHook.RewriteIdempotent | zygisk/jni/zygisk.cpp:18-23 | rewriting an already-forwarded delivery changes nothing more; for the key, the forwarded delivery does not depend on the original value |
| PropertyHook.RewriteExamples | zygisk/jni/zygisk.cpp:19-22 | `ro.product.first_api_level`="30" is forwarded as "33"; `ro.build.version.sdk`="34" is forwarded as "34" |
| Common.StartsWithAppend | zygisk/jni/zygisk.cpp:45 | a name starts with a prefix of a given length exactly when its first bytes are that prefix |
| Provisioning.SizeToInt32 | zygisk/jni/zygisk.cpp:60 | the `int` cast of a size is a 32-bit value congruent to the size modulo 2^32; it equals the size exactly when the size is at most 2^31 - 1 |
| Provisioning.LittleEndianRoundTrip | zygisk/jni/zygisk.cpp:61 | a number that fits in `width` bytes is read back unchanged from its least-significant-first bytes |
| Provisioning.Int32RoundTrip | zygisk/jni/zygisk.cpp:141-142 | the four bytes the caller sends for an `int` decode back to the same `int` on the companion side |
| Provisioning.EncodeRequest | zygisk/jni/zygisk.cpp:60-62 | the request is four bytes longer than the path: first the four bytes of the `int`-cast length, then the path itself; when the length fits in an `int`, the header decodes to that length |
| Provisioning.DecodeRequest | zygisk/jni/zygisk.cpp:141-147 | a path is received exactly when four header bytes arrive and hold a non-negative size; the path then has exactly that size, holds the bytes that followed the header, and is zero-filled where fewer bytes arrived |
| Provisioning.RequestRoundTrip | zygisk/jni/zygisk.cpp:60-62 | whatever follows on the connection, the companion receives exactly the sent path if, and only if, its length fits in an `int` |
| Provisioning.OversizedPathIsNotReceived | zygisk/jni/zygisk.cpp:144-145 | a path of length 2^31 to 2^32 - 1 gets a negative size on the wire, and the companion receives no path |
| Provisioning.EncodeReply | zygisk/jni/zygisk.cpp:162 | the reply is one byte holding 0 or 1, and it decodes to the boolean sent |
| Provisioning.DecodeReply | zygisk/jni/zygisk.cpp:63-64 | an answer is read exactly when at least one byte arrives; a 0 or 1 byte reads as false or true |
| Provisioning.ReplyRoundTrip | zygisk/jni/zygisk.cpp:162 | the one-byte reply decodes to the boolean that was sent |
| Provisioning.Companion | zygisk/jni/zygisk.cpp:140-163 | a connection is served exactly when a path is received; the destination is path + "/SNFix.dex"; the copy goes there; permissions are set exactly when the copy succeeded; the reply decodes to the copy's outcome |
| Provisioning.CompanionServesRequest | zygisk/jni/zygisk.cpp:140-162 | for every path that fits the length field, the companion serves exactly that path, writes to path + "/SNFix.dex", and the caller reads back the copy's outcome |
| Gate.PreAppSpecialize | zygisk/jni/zygisk.cpp:40-76 | outside the `com.google.android.gms` prefix: only the unload option, and the state is unchanged; inside it, the denylist unmount is forced; a prefixed name other than the unstable one gets exactly that option and nothing else (it stays loaded), and the state is unchanged; exactly one companion connection, and only for the exact unstable name, carrying the encoded data dir; for the unstable name, the kept dir is the data dir on a true reply and empty on a false one, and unload is requested exactly on a false reply; it never hooks or loads |
| Gate.PostAppSpecialize | zygisk/jni/zygisk.cpp:78-128 | the dir is empty afterwards on every path; with no dir, no effect; if the symbol is not found, no hook and no load; otherwise the hook is installed and then dir + "/SNFix.dex" is loaded; no option is set and no connection is made |
| Gate.PreServerSpecialize | zygisk/jni/zygisk.cpp:130-132 | the only option set is the unload option; it is the sole effect, and the state is unchanged |
| Gate.UnstableIsInNamespace | zygisk/jni/zygisk.cpp:45-54 | the exact unstable name passes the namespace prefix test, so the companion branch is reachable |
| Lifecycle.OutsideNamespaceOnlyUnloads | zygisk/jni/zygisk.cpp:45-50 | for a name outside the prefix, the whole specialization asks for unload only: no denylist option, no connection, no hook, no load, and no dir kept |
| Lifecycle.OneConnectionForUnstableOnly | zygisk/jni/zygisk.cpp:52-59 | one companion connection per specialization for the unstable name and none for any other; other names never hook or load |
| Lifecycle.DirectoryAlwaysReleased | zygisk/jni/zygisk.cpp:67-119 | every specialization ends with an empty `appDir` |
| Lifecycle.PayloadLoadedExactlyWhen | zygisk/jni/zygisk.cpp:54-98 | the hook is installed, and the payload loaded, if and only if the name is the unstable one, the reply is true, the dir is non-empty and the symbol was found; the payload is then loaded once, from dir + "/SNFix.dex", right after the hook |
| Lifecycle.UnloadRequestedExactlyWhen | zygisk/jni/zygisk.cpp:45-71 | a specialization asks to be unloaded if, and only if, the name is outside the `com.google.android.gms` prefix, or it is the unstable name and the companion replied false; other prefixed names keep the module loaded |
| Lifecycle.UnloadExcludesHook | zygisk/jni/zygisk.cpp:45-90 | a specialization that asks for unload never installs the hook |
| Lifecycle.ProvisionedPayloadIsLoaded | zygisk/jni/zygisk.cpp:59-98 | for the unstable process, with a path that fits the length field, the payload is loaded if and only if the companion's copy succeeded, the dir is non-empty and the symbol was found; it is loaded from the very file the companion wrote |

## Left out

- `onLoad` and the stored `Api *` and `JNIEnv *` handles (zygisk.cpp:35-38). They are plumbing: the model's callbacks take their inputs directly.
- Reading `nice_name` and `app_data_dir` through JNI (zygisk.cpp:41-43, 55-57). They arrive as byte strings with no NUL byte inside.
- `DobbySymbolResolver` and `DobbyHook`. The lookup is a boolean input, and the trampoline is the `InstallHook` effect. The `my_hook`/`handle_system_property` pair it installs is modelled in `PropertyHook`.
- The JNI class loading and `EntryPoint.init` call, and the local-reference releases (zygisk.cpp:92-127). These are one `LoadPayload(path)` effect. A failure there is fatal to the process and is not modelled.
- Real socket behaviour is not modelled. The connection is a perfect byte queue: `recv` returns what is queued, up to the size asked for. Partial sends, dropped connections and the uninitialised `correct` after a failed `recv` (zygisk.cpp:63-64) are left out. `Lifecycle.CompanionReply` reads "no reply" as false.
- `std::filesystem::copy_file` and `permissions` are left out. The copy is an oracle from destination to success, and the permission change always succeeds. The throwing overload of `copy_file` throws on failure instead of returning false, and the model ignores that.
- `Provisioning.DecodeRequest`: a negative size makes `std::string::resize` throw, and the companion then sends no reply. This is modelled as "no path received"; what the exception does to the companion process is not modelled.
- Logging (`LOGI`) and the registration macros (zygisk.cpp:165-167).
- `PropertyHook.HookedReadForwardsOnce` holds for a read that no other thread's read interleaves with. `o_callback` is one process-wide pointer: every `my_hook` call overwrites it (zygisk.cpp:27), and the handler reads it later (zygisk.cpp:23). If two threads read at once, one thread's delivery can reach the other thread's callback. That race is not modelled.
- Concurrency: the companion serves many target processes, and each connection is modelled on its own.
- `Lifecycle.ProvisionedPayloadIsLoaded` is stated only for data directories of at most 2^31 - 1 bytes. For longer paths the length field wraps (see `Provisioning.OversizedPathIsNotReceived`), and the caller's reply is then undefined.
