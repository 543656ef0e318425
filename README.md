# librime-rs `Engine` and modifier table, modelled in Dafny

This project models the two parts of the Rust binding to the librime input-method engine that carry logic of their own:

- **The `Engine` wrapper** (`src/engine.rs`). An `Engine` holds at most one native session and a deploy-result slot. The native notification callback writes into that slot. The model is the class `Engine.Engine`:
  - `session: Option<Session>` is the session slot that every per-session operation checks first.
  - `deployResult: Option<DeployResult>` is the slot that `notification_handler` fills in.
  - The decoder is the function `Engine.Handle` and the method `Engine.Engine.Notify`, which applies it to the slot.
  - The pure forwards (`get_session`, `process_key`, `context`, `commit`, `status`, `simulate_key_sequence`) are functions that read the session slot.
  - The operations that change the session or the native engine (`create_session`, `close`, `select_schema`) are methods.
  - `wait_for_deploy_result` is a `while` loop that polls the slot.
- **The modifier bit table** (`include/modifiers.h`, copied from librime's `key_table.h`). It becomes `bv32` constants in module `Modifiers`. Lemmas show that the table is self-consistent: every flag is a distinct single bit, the two aliases name existing flags, and `ModifierMask` (`0x5f001fff`) is exactly the union of the named flags. The bits the header calls XKB, unused or internal lie outside it.

The native engine's code is not part of this model. Module `Native` states what the binding relies on:
- `Runtime.live` is the set of session ids the engine considers live. `FindSession` is membership in that set.
- Native session creation, destruction and schema selection may succeed or fail as the engine decides. They are written as nondeterministic methods. Ghost logs record every create, destroy and select call the binding makes.
- The answers to per-session queries (key processing, context, commit, status, key-sequence simulation) are oracle functions of the session id, bundled in a `Replies` value. The binding passes them through.

The callback runs on another thread. `WaitForDeployResult` takes that as an input: `batches[k]` is the list of notifications delivered during the loop's `k`-th sleep.

A reader might expect a binding like this to keep one session at a time, to mark a session closed, and to reset the deploy slot for each full deploy. Nothing in src/engine.rs promises any of these, and the code does none of them. The model follows the code:
- `create_session` makes no explicit close call on an earlier session; it only overwrites the field. Whether dropping the overwritten `Session` closes it natively depends on that type's destructor, which is not part of this model.
- `close` never clears `session`. A second close is harmless only because the session is no longer live, not because a closed flag is kept.
- The deploy slot is set to `None` once, when the `Engine` is built, and is never reset afterwards.
- `select_schema` ignores the engine's answer and always returns `Ok(())` when a session exists.
- Any failure of `simulate_key_sequence` becomes `SimulateKeySequence`. An embedded NUL byte is not reported separately.
- `wait_for_deploy_result` has no timeout (src/engine.rs:102-105). If no deploy outcome is ever delivered, for instance because maintenance was started without a full check, the loop never returns. Only the doc comment at src/engine.rs:100 warns callers about this.

## Model

| member | source | states |
|---|---|---|
| `Modifiers.BitIndex` | include/modifiers.h:7-35 | every flag of the table is the single bit `1 << k` for some `k < 32` |
| `Modifiers.FlagAt` | include/modifiers.h:7-35 | the flag the table assigns to bit `k`, when there is one, occupies exactly bit `k` |
| `Modifiers.FlagAtBitIndex` | include/modifiers.h:7-35 | every flag is found again at its own bit, so the bit-to-flag map is the inverse of the flag-to-bit map |
| `Modifiers.DistinctFlags` | include/modifiers.h:7-35 | two different flags occupy different bits and have disjoint masks |
| `Modifiers.Aliases` | include/modifiers.h:10-29 | `AltMask` is `Mod1Mask` and `IgnoredMask` is `ForwardMask` |
| `Modifiers.ModifierMaskIsUnion` | include/modifiers.h:7-37 | `ModifierMask` equals the bitwise OR of every named mask, aliases included |
| `Modifiers.WithinModifierMask` | include/modifiers.h:7-37 | every named mask `m` satisfies `m & ModifierMask == m` |
| `Modifiers.ModifierMaskExact` | include/modifiers.h:7-37 | bit `k` is in `ModifierMask` if and only if the table names a flag for bit `k` |
| `Modifiers.ReservedBitsOutsideMask` | include/modifiers.h:22-37 | bits 13-23, the internal bit 29 and bit 31 are not set in `ModifierMask` |
| `Engine.Handle` | src/engine.rs:36-58 | type `"deploy"` with value `"success"`/`"failure"` sets the slot to `Some(Success)`/`Some(Failure)`; any other type, or any other value, leaves the slot as it was |
| `Engine.DeliverAllLastOutcome` | src/engine.rs:46-56 | after a run of notifications the slot holds `d` if and only if the last notification that reports a deploy outcome reports `d`, or none reports one and the slot held `d` before |
| `Engine.DeliverAllNeverReverts` | src/engine.rs:46-56 | once the slot holds a result, no run of notifications empties it again |
| `Engine.HandleIdempotent` | src/engine.rs:46-56 | delivering one notification twice has the effect of delivering it once |
| `Engine.DeliverAllPrefix` | src/engine.rs:46-56 | if the slot holds a result after a prefix of a run, it still holds one after the whole run |
| `Engine.PolledFinds` | src/engine.rs:101-107 | polling an empty slot ends with a result if and only if some delivered notification reports a deploy outcome |
| `Engine.Engine.constructor` | src/engine.rs:60-74 | a new engine has no session and an empty deploy slot |
| `Engine.Engine.Notify` | src/engine.rs:36-58 | the callback replaces the slot by `Handle(old slot, notification)` and changes nothing else |
| `Engine.Engine.GetSession` | src/engine.rs:77-82 | `Ok` of the session exactly when one exists; otherwise `Err(SessionNotExists)` |
| `Engine.Engine.ProcessKey` | src/engine.rs:84-86 | no session: `Err(SessionNotExists)`; otherwise `Ok` of the engine's answer for this session and event |
| `Engine.Engine.Context` | src/engine.rs:88-90 | no session: `None` (not an error); otherwise the engine's context for this session |
| `Engine.Engine.Commit` | src/engine.rs:92-94 | no session: `None` (not an error); otherwise the engine's pending commit for this session |
| `Engine.Engine.Status` | src/engine.rs:96-98 | no session: `Err(SessionNotExists)`; a failing native status call: `Err(GetStatus)`; otherwise `Ok` of the native status |
| `Engine.Engine.SimulateKeySequence` | src/engine.rs:118-123 | no session: `Err(SessionNotExists)`; the engine refuses the text: `Err(SimulateKeySequence)`; otherwise `Ok(())` |
| `Engine.Engine.WaitForDeployResult` | src/engine.rs:101-107 | returns the result the slot holds when polling stops, and leaves it in the slot; a slot that already holds a value is returned exactly and not modified |
| `Engine.Engine.Close` | src/engine.rs:109-116 | native close is called only when a session exists and is live; without one the result is `Ok(())` and nothing changes; a native failure gives `Err(CloseSession)`; `session` is never cleared |
| `Engine.Engine.CreateSession` | src/engine.rs:125-132 | native creation is called exactly once; the result is `Ok(())` if and only if the id it handed out passes the liveness probe, and then `session` is `Some` of that new session; when the probe fails the result is `Err(CreateSession)` and `session` is left as it was; no explicit close call is made on an earlier session |
| `Engine.Engine.SelectSchema` | src/engine.rs:134-137 | no session: `Err(SessionNotExists)` and no native call; otherwise one native select call and `Ok(())` whatever the engine answers |
| `Engine.NoSessionFails` | src/engine.rs:77-98 | with no session, process-key, status and key-sequence simulation fail with `SessionNotExists`, while context and commit are absent |
| `Engine.QueriesUseOwnSession` | src/engine.rs:84-123 | every query is answered for the engine's own session: native engines that answer alike for it give the same results |
| `Engine.CloseTwice` | src/engine.rs:109-116 | after a successful close, a second close succeeds without calling native close again |
| `Native.Runtime.CreateSession` | src/engine.rs:126-127 | what the binding relies on from native creation: each call is logged with the id it hands out, and that id is live afterwards (possibly already live before) or is dead |
| `Native.Runtime.DestroySession` | src/engine.rs:111-112 | what the binding relies on from native close: each call is logged, and on success the id is no longer live |
| `Native.Runtime.SelectSchema` | src/engine.rs:135 | what the binding relies on from native schema selection: each call is logged and the session table is unchanged |

## Left out

- `Engine::new`'s native calls (`setup`, `RimeSetNotificationHandler`, `initialize`, `start_maintenance(true)`) are foreign calls with no result the binding uses. The constructor models only the fields it initialises. The registration of the callback on the engine's slot is modelled by `Notify` writing to that slot.
- The cross-thread delivery of notifications and the `thread::sleep`/`spin_loop` in `wait_for_deploy_result` are concurrency and timing. The deliveries during each sleep are an input (`batches`), and the `interval` argument is not modelled.
- Engine.Engine.WaitForDeployResult: requires that polling eventually sees a deploy outcome. Without one the source loops forever, so there is nothing to return.
- A slot that changes between the loop's last check and the `unwrap` is not modelled. The model reads the slot once, when the loop stops.
- Raw pointers: `CStr::from_ptr` and the `*mut c_void` cast of the boxed slot. Strings are `seq<char>` and the slot is an ordinary field.
- The native session's own state (composition, schema, key sequence effects) and the `Session`, `Context`, `Commit` and `Status` wrappers: their definitions are not part of this model. Replies are opaque oracles, and the snapshot datatypes keep only a few illustrative fields.
- Implicit destruction of a `Session` when it is dropped (on the `Err` path of `create_session`, or when a new session overwrites the old one): the `Session` type's `Drop` behaviour is not part of this model.
- Engine.Engine.CreateSession: its clauses that the earlier session stays live and is never destroyed assume that dropping the overwritten `Session` makes no native call. That type's destructor is not part of this model; if it closes a live session, the earlier id leaves `live` after the new one is installed.
- The `Config` struct (src/engine.rs:27-30) is declared but used by nothing in the core.
- The `Display` impl of `Error` (src/errors.rs:16-20) is formatting only.
- `SessionId` is an unbounded `nat`. The native `usize` width plays no role in the wrapper's logic.
