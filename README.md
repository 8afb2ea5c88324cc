# go-cache: the memory store and the cache facade, in Dafny

This project models the core of `gocache`, a small Go caching layer: the
`Store` interface, the in-process `MemoryStore` backend, and the `Cache`
facade with its "remember" helpers (`RememberString`, `RememberStruct`),
which read a key, compute the value on a miss, store it and read it back.

Three modules, one per source file:

- `Store` (`store.dfy`, after types.go): the error values (`MissingKey` for
  the `ErrMissingKey` sentinel, `Other(msg)` for everything else, `None` for
  Go's nil), the outcome of a compute callback, the five calls of the `Store`
  interface, and `AnyStore`, a store that answers every call by an arbitrary
  fixed function of all calls it has been asked. Go's `Store` interface is
  open, and `AnyStore` stands for an arbitrary implementation of it: the
  replies of any single run of any store are described by some such function.
- `Memory` (`memory.dfy`, after memory_store.go): the `MemoryStore` class
  with its two map fields updated in place, the pure semantics `Apply` (one
  call) and `Run` (a sequence of calls), and lemmas over every sequence of
  calls: reads change nothing, ttl is ignored, a key never put is missing, a
  put is read back, and the string and struct namespaces are independent.
- `CacheFacade` (`cache.dfy`, after cache.go): the `Cache` class over a
  `Backend` (a MemoryStore, an `AnyStore`, or another Cache, as the tests
  nest one Cache in another). One abstract `StoreState` and transition
  function `Step` describe every backend; each forwarder is proved to have
  exactly the wrapped store's reply and effect, and the remember methods are
  proved equal to the functions `RememberStringFlow` / `RememberStructFlow`,
  about which the lemmas state the source's promises for an arbitrary store
  (which calls the store sees on each path, when f is invoked) and for the
  memory store (a miss returns exactly the computed value and stores it; a
  second call is a hit).

The compute callback `f` is an input `Outcome` (`Ok(v)` or `Err(e)`): the
value it would return if invoked. The remember methods return a ghost flag
`called` saying whether it was invoked. The `GetStruct` destination is a
value passed in (`data`) and returned (`out`); a miss returns it unchanged.

## Model

| member | source | states |
|---|---|---|
| `Store.AnyStore.GetString` | types.go:9 | an arbitrary store records the call and returns the string and error its reply function gives for the record so far |
| `Store.AnyStore.PutString` | types.go:10 | an arbitrary store records the put with its data and ttl and returns the error its reply function gives |
| `Store.AnyStore.GetStruct` | types.go:12 | an arbitrary store records the call, returns its error and writes the destination only when its reply says so |
| `Store.AnyStore.PutStruct` | types.go:13 | an arbitrary store records the put with its value and ttl and returns the error its reply function gives |
| `Store.AnyStore.Forget` | types.go:15 | an arbitrary store records the removal and returns the error its reply function gives |
| `Memory.MemoryStore.constructor` | memory_store.go:22-30 | a new store has both maps empty |
| `Memory.MemoryStore.GetString` | memory_store.go:32-41 | a present key yields its string and nil; an absent key yields "" and ErrMissingKey; neither map changes; reply and destination agree with `Apply` on its maps |
| `Memory.MemoryStore.PutString` | memory_store.go:43-49 | always returns nil; the string map becomes the old one with the key overwritten; the struct map is untouched; ttl plays no part; new maps and error are those of `Apply` on the old maps |
| `Memory.MemoryStore.GetStruct` | memory_store.go:51-62 | a present key sets the destination to the stored value and returns nil; an absent key returns ErrMissingKey and leaves the destination as it was; neither map changes; reply and destination agree with `Apply` on its maps |
| `Memory.MemoryStore.PutStruct` | memory_store.go:64-70 | always returns nil; the struct map becomes the old one with the key overwritten; the string map is untouched; ttl plays no part; new maps and error are those of `Apply` on the old maps |
| `Memory.GetsChangeNothing` | memory_store.go:32-62 | any sequence of GetString and GetStruct calls leaves both maps exactly as they were |
| `Memory.TtlIsIgnored` | memory_store.go:43-69 | two call sequences that differ only in the ttls of their puts leave the store in the same state |
| `Memory.StringKeyUntouched` | memory_store.go:47 | a string key that no call in a sequence puts keeps its value, or stays absent |
| `Memory.StructKeyUntouched` | memory_store.go:68 | a struct key that no call in a sequence puts keeps its value, or stays absent |
| `Memory.NeverWrittenStringIsMissing` | memory_store.go:36-40 | on a new store, GetString of a key no call has put yields ("", ErrMissingKey), whatever else was done |
| `Memory.NeverWrittenStructIsMissing` | memory_store.go:55-61 | on a new store, GetStruct of a key no call has put yields ErrMissingKey and writes nothing, whatever else was done |
| `Memory.PutStringThenGetString` | memory_store.go:36-47 | after PutString(k, v, ttl) and any calls that do not put k as a string, GetString(k) yields (v, nil) |
| `Memory.PutStructThenGetStruct` | memory_store.go:55-68 | after PutStruct(k, d, ttl) and any calls that do not put k as a struct, GetStruct(k) writes d and yields nil |
| `Memory.StringsIgnoreStructs` | memory_store.go:11-12 | the string map after a sequence of calls depends only on its string calls and the initial string map, never on struct calls or the struct map |
| `Memory.StructsIgnoreStrings` | memory_store.go:11-12 | the struct map after a sequence of calls depends only on its struct calls and the initial struct map, never on string calls or the string map |
| `Memory.GetStringMissingKeyScenario` | memroy_store_test.go:15-22 | GetString("bongo") on a new store yields ("", ErrMissingKey) |
| `Memory.GetStringHitScenario` | memroy_store_test.go:24-32 | PutString("bongo", "bingo", 0) then GetString("bongo") yields ("bingo", nil) |
| `Memory.GetStructMissingKeyScenario` | memroy_store_test.go:42-49 | GetStruct("bongo") on a new store yields ErrMissingKey with the destination unchanged |
| `Memory.GetStructHitScenario` | memroy_store_test.go:51-61 | PutStruct("bongo", {Data: "bingo"}, 0) then GetStruct fills the destination with Data "bingo" and yields nil |
| `CacheFacade.Cache.constructor` | cache.go:13-17 | NewCache wraps the given store, which may itself be a Cache |
| `CacheFacade.Cache.GetString` | cache.go:19-21 | returns exactly the wrapped store's string and error and has exactly its effect |
| `CacheFacade.Cache.PutString` | cache.go:23-25 | returns exactly the wrapped store's error and has exactly its effect |
| `CacheFacade.Cache.GetStruct` | cache.go:49-51 | returns exactly the wrapped store's error, leaves the destination as the store leaves it, has exactly its effect |
| `CacheFacade.Cache.PutStruct` | cache.go:53-55 | returns exactly the wrapped store's error and has exactly its effect |
| `CacheFacade.Cache.Forget` | cache.go:79-81 | returns exactly the wrapped store's error and has exactly its effect |
| `CacheFacade.Cache.RememberString` | cache.go:27-47 | result, invocation of f and the store's new state are those of the state machine RememberStringFlow on the store's old state |
| `CacheFacade.Cache.RememberStruct` | cache.go:57-77 | destination, error, invocation of f and the store's new state are those of RememberStructFlow on the store's old state |
| `CacheFacade.RememberStringOnAnyStore` | cache.go:27-47 | for any store: f is invoked iff the first GetString reports ErrMissingKey; a hit returns the value with nil and the store sees one GetString; another error is returned with "" and no put; a compute error is returned with "" and no put; a failed put is returned with "" and no re-read; otherwise the store sees GetString, PutString(key, item, ttl), GetString and the re-read's reply is returned |
| `CacheFacade.RememberStringReturnsReread` | cache.go:46 | a store whose re-read answers "pears" makes a miss computing "apples" return "pears": the result is the re-read, not the computed item |
| `CacheFacade.RememberStringOnMemory` | cache.go:27-47 | over a MemoryStore: a hit returns the stored value, does not invoke f and changes nothing; a miss invokes f; a computed item is returned exactly and stored under the key; a compute error is returned with "" and nothing stored |
| `CacheFacade.RememberStringComputesOnce` | cache.go:28-36 | over a MemoryStore, after a RememberString that succeeds, a second one on the same key does not invoke f, returns the same value and changes nothing |
| `CacheFacade.RememberStructOnAnyStore` | cache.go:57-77 | for any store, the same machine on the struct API: f is invoked iff the first GetStruct reports ErrMissingKey; each error path returns its error with no later call; on success the store sees GetStruct, PutStruct(key, item, ttl), GetStruct and the destination is filled by the re-read |
| `CacheFacade.RememberStructOnMemory` | cache.go:57-77 | over a MemoryStore: a hit fills the destination with the stored value and does not invoke f; a miss invokes f; a computed item is stored and lands in the destination; a compute error leaves destination and store as they were |
| `CacheFacade.RememberStructComputesOnce` | cache.go:58-66 | over a MemoryStore, after a RememberStruct that succeeds, a second one on the same key does not invoke f, yields the same value and changes nothing |
| `CacheFacade.RememberStringMissScenario` | cache_test.go:48-60 | a Cache over a Cache over a new MemoryStore: RememberString("bongo") with f returning "apples" invokes f and returns ("apples", nil) |
| `CacheFacade.RememberStringHitScenario` | cache_test.go:62-76 | after PutString("bongo", "apples"), RememberString returns ("apples", nil) without invoking f |
| `CacheFacade.RememberStructMissScenario` | cache_test.go:78-91 | RememberStruct on a missing key with f returning {Data: "oranges"} invokes f and fills the destination with it |
| `CacheFacade.RememberStructHitScenario` | cache_test.go:93-109 | after PutStruct("bongo", {Data: "pears"}), RememberStruct fills the destination with it without invoking f |

## Left out

- redis_store.go and rueidis_store.go are not part of this model: they forward to network clients and a JSON codec whose behaviour is not visible. A store like them is covered only as an `AnyStore`.
- The `sync.RWMutex` locks of the memory store and all concurrency: the model is single-threaded, so the lost update between two concurrent remember calls on one key is not modelled.
- `context.Context` is dropped from every call; it has no effect on the memory store or the facade. `time.Duration` is kept as an integer ttl that the memory store ignores and an `AnyStore` may see; no clock or expiry exists.
- `MemoryStore.Forget` is not in memory_store.go as given, though the file claims that `MemoryStore` satisfies `Store`; its semantics are not invented. `Step` is undefined for Forget on the memory state.
- CacheFacade.Cache.Forget: requires that the store at the bottom of the chain of Caches is one with Forget (an `AnyStore`), because the memory store's Forget is not part of this model.
- Reflection in `GetStruct`: in Go, `reflect.Value.Set` panics when the destination has another type; the type parameter rules that case out and no error is modelled.
- Struct values are stored as values of the type parameter; when it is instantiated with a class type the stored reference is shared, as in Go, but the aliasing hazard is not stated as a property.
- `errors.Is` is modelled as equality with `MissingKey`: wrapped errors do not exist in the closed error type.
- `NewCache(nil)` and other nil receivers, which panic in Go, are not modelled: a `Backend` always holds a store.
- The test scaffolding (the shared global `memC`, order dependence between tests, containers and mocks) is not modelled; each scenario starts from a new store.
