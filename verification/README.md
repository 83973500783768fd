# Session template registry — a Dafny model

The NetFlow v9 and IPFIX decoders keep one session per exporter. A session
holds two tables, both keyed by the pair (template ID, observation-domain ID):

- the templates the exporter has announced;
- the largest record size seen for each template.

This project models that registry (`session/session.go`) as immutable values
and pure functions, and proves what the code promises about it:

- the composite key packs a 16-bit template ID and a 32-bit observation-domain
  ID into a 64-bit word without overlap, so it is injective and invertible;
- the template table is a last-write-wins map;
- the size table is a max-accumulating map in which an absent key reads as
  Go's zero value `0`;
- each operation changes only its own key in its own table.

Modules:

- `Ids` (`ids.dfy`) defines the composite key. `uint16`, `uint32` and
  `uint64` are the bit-vector types `bv16`, `bv32` and `bv64`. `CombinedID` is
  the Go expression `uint64(tid)<<32 | uint64(oid)` written with the same
  operators. Map keys wrap the 64-bit word in a one-field datatype `Key`.
- `Session` (`session.dfy`) defines `BasicSession` (two maps) and `New`,
  `GetRecordSize`, `SetRecordSize`, `AddTemplate` and `GetTemplate`. It also
  defines the invariant `Valid`, which holds for every session the store
  builds: each template is filed under its own IDs, and each stored size is
  positive. Each mutating call returns the next session instead of updating
  a struct in place. The getters return a value and change nothing.
- `History` (`history.dfy`) models a session's lifetime as a sequence of
  `AddTemplate` / `SetRecordSize` calls. With callers holding the session
  lock, every interleaving of concurrent decoders is such a sequence. It
  proves each table against an independent reference reading of the history:
  the latest template added, and the peak size recorded.
- `Wrappers` (`wrappers.dfy`) holds `Option`. `GetTemplate` returns `None`
  where Go returns `(nil, false)`. `GetRecordSize` returns `SizeLookup(size,
  found)`, which is Go's `(size, found)` pair.

An absent key reads as Go's zero value `0` at session/session.go:58, so
`SetRecordSize` inserts an absent key only when the size is positive. A call
with a size `<= 0` leaves the key absent, and `GetRecordSize` keeps reporting
`found == false` (`SetRecordSizeIgnoresSmaller`).

## Model

| member | source | states |
|---|---|---|
| `Ids.CombinedID` | session/session.go:47-49 | the packed key has bits 48..63 clear; shifting it right by 32 gives back the template ID; masking it with 0xFFFFFFFF gives back the observation-domain ID |
| `Ids.CombinedIDIsPositional` | session/session.go:47-49 | the packed word equals tid * 2^32 + oid in 64-bit arithmetic and is below 2^48, so neither field is truncated or wrapped |
| `Ids.CombinedIDInjective` | session/session.go:47-49 | two (tid, oid) pairs give the same key if and only if both fields are equal; the test at session/session_test.go:58-60 checks one instance |
| `Ids.CombinedIDSurjective` | session/session.go:47-49 | every 64-bit key with its top 16 bits clear is the packing of the fields read back out of it, so packing is a bijection onto such keys |
| `Session.New` | session/session.go:31-37 | a new session satisfies the invariant, every template lookup misses, and every size lookup returns (0, false) |
| `Session.GetRecordSize` | session/session.go:51-54 | found exactly when the key is stored; the size is the stored value, or 0 when absent; on a valid session, found exactly when the size is positive |
| `Session.GetTemplate` | session/session.go:68-72 | found exactly when the key is stored; on a valid session the template returned carries the requested template and domain IDs |
| `Session.SetRecordSize` | session/session.go:56-61 | the size read back afterwards is the maximum of the size read before (0 when absent) and the new size; the key is present afterwards exactly when it was before or the new size is positive; other keys and the template table are unchanged; the invariant is preserved |
| `Session.AddTemplate` | session/session.go:63-66 | a lookup by the template's own TID()/OID() returns it; lookups under every other (tid, oid) and the size table are unchanged; the invariant is preserved |
| `Session.AddTemplateLastWriteWins` | session/session.go:63-66 | adding a second template with the same IDs gives the same session as adding only the second, and a lookup returns the second |
| `Session.AddTemplateIdempotent` | session/session.go:63-66 | adding a template that is already filed changes nothing, and adding one twice equals adding it once |
| `Session.AddTemplatesCommute` | session/session.go:63-66 | templates with different (tid, oid) can be added in either order with the same result |
| `Session.SetRecordSizeMonotone` | session/session.go:56-61 | a stored size never decreases or disappears; after a call with a positive size the key is found with a size at least that large |
| `Session.SetRecordSizeIgnoresSmaller` | session/session.go:56-61 | a size not above the stored one (0 when absent) leaves the session unchanged, so an absent key stays absent after a size <= 0 |
| `Session.SetRecordSizeIdempotent` | session/session.go:56-61 | recording the same size twice equals recording it once |
| `Session.SetRecordSizesCommute` | session/session.go:56-61 | any two size updates, for the same key or different keys, give the same session in either order |
| `Session.AddTemplateCommutesWithSetRecordSize` | session/session.go:56-66 | the two tables are independent: a template addition and a size update commute |
| `Session.SingleTemplateScenario` | session/session_test.go:24-35 | a template (1, 2) added to a new session is found under (1, 2) and carries those IDs |
| `Session.SameTidDistinctOidScenario` | session/session_test.go:37-60 | templates (1, 2) and (1, 3) coexist and are each found under their own IDs, and their keys differ |
| `Session.RecordSizeScenario` | session/session.go:51-61 | recording sizes 10, 5 and 20 for one key reads back (10, true) after the 5 and (20, true) after the 20; an untouched key reads (0, false) |
| `History.RunKeepsValid` | session/session.go:56-66 | every sequence of additions and size updates preserves the invariant: templates stay under their own IDs and stored sizes stay positive |
| `History.RunFindsLatestTemplate` | session/session.go:63-72 | after any history, a lookup returns the latest template added under those IDs, or else what the starting session held; size updates do not affect it |
| `History.RunKeepsPeakSize` | session/session.go:51-61 | after any history, the size read back is the maximum of the starting size and every size recorded for the key; the key is present exactly when it was before or some recorded size was positive; template additions do not affect it |
| `History.SizesNeverDecrease` | session/session.go:56-61 | along any history, a stored size is never removed and never decreases |
| `History.SerializedDisjointAddsAllRetrievable` | session/session.go:63-72 | when lock-serialized callers add templates under pairwise distinct keys to a new session, every added template can be retrieved afterwards |

## Left out

- `Lock` / `Unlock` and the `sync.Mutex` field (session/session.go:26, 39-45): they have no sequential meaning. Callers that hold the lock produce a serial sequence of calls, and `History` models those sequences.
- The `65536` capacity hint passed to `make` (session/session.go:34-35): it only affects performance.
- The `Session` interface (session/session.go:12-23) and the compile-time assertion that `basicSession` satisfies it (session/session.go:75): the Go interface adds no behaviour beyond the four methods modelled and `Lock` / `Unlock`.
- Concrete template types and the decoders that build them: a template is a value with its `TID()` / `OID()` fields and an opaque definition. A datatype value cannot be nil, so the nil template that would panic at session/session.go:64 cannot be passed.
- Reference identity: Go stores interface values, which compare by pointer for pointer receivers. The model compares templates by value.
- `MockTemplate.ID` (session/session_test.go:12-14): it is a test helper and the store does not use it.
- Sizes are Go's `int`, which is 32 or 64 bits wide depending on the platform. The model uses the signed 64-bit range, which contains the 32-bit one. Sizes are only compared, never computed with, so every lemma holds for either width.
- History.RunKeepsPeakSize: requires the starting session to satisfy `Valid`, which every session built by `New` and the store's operations does. A session holding a size <= 0 cannot arise, and in one the maximum would start below 0.
