# DataPrism core: cloud fetch cache, buffer allocator, input validation

This project is a Dafny model of the WebAssembly core of DataPrism. Its centre is `CloudStorageBridge`, a cache of remote objects keyed by URL. It holds:

- a host-supplied HTTP transport, and
- a map from the URL string, exactly as the caller passed it, to the fetched bytes, status and storage provider.

Around the bridge sit five smaller pieces:

- `detect_provider`: a first-match, case-insensitive substring classifier for URLs.
- `CloudDataBuffer`: a provenance-tagged byte buffer whose `slice` clamps instead of failing.
- The post-fetch splitting done by `stream_cloud_data`.
- `MemoryManager`: an id allocator over a `HashMap<u32, Vec<u8>>`.
- `validate_input_data` and the `DataPrismError` record.

Modules:

- `Wrappers` (wrappers.dfy): `Option` and `Result`.
- `Numeric` (numeric.dfy): `u8`, `u16`, `u32`, `u32::MAX`, `Bytes` and `Min`.
- `Utils` (utils.dfy): `validate_input_data` and `DataPrismError`.
- `MemoryManagement` (memory_manager.dfy): the `MemoryManager` class. Its state is a `map<u32, Allocation>` and a `u32` counter.
- `Provider` (provider.dfy): `DetectProvider`. It is proved equal to a reference classifier: the first matching rule of an ordered rule table, applied to the lower-cased URL.
- `Chunking` (chunking.dfy): `<[T]>::chunks` as a function on sequences, with its partition, size, count and indexing properties.
- `CloudStorage` (cloud_storage_bridge.dfy) holds:
  - the value types;
  - `Fetch`, the cache transition of `fetch_cloud_data` as a pure function, with lemmas about hits, misses, re-fetching and consistency;
  - the `CloudStorageBridge` class, whose methods are proved against `Fetch` and `Chunks`.

How the model represents the source:

- **Transport.** The injected JavaScript function is the bridge's `const httpClient: Request -> Reply`. A reply is either a failure, carrying the reason, or a response. A response carries:
  - an optional numeric status;
  - opaque headers;
  - the full body.

  The call and the two awaits in the source (the transport's promise, then `arrayBuffer()`) count as one step. Any error raised along the way is the `Failure` reply.
- **Status.** The status recorded in the cache is the response's status, or 200 when it has none.
- **`&self` methods.** `fetch_cloud_metadata` and `stream_cloud_data` take `&self`, so they have no `modifies` clause. They cannot change the cache.

## Model

| member | source | states |
|---|---|---|
| Utils.NewDataPrismError | packages/src/utils.rs:15-36 | the message, error_type and code getters return exactly the constructor's arguments |
| Utils.ValidateInputData | packages/src/utils.rs:40-52 | accepted iff 1 <= length <= 100_000_000; acceptance is always `Ok(true)`; empty input gives "Input data cannot be empty"; oversized input gives "Input data exceeds maximum size limit" |
| Utils.ValidationBoundaries | packages/src/utils.rs:46-51 | exactly 100_000_000 bytes and a single byte are accepted; 100_000_001 bytes are rejected as too large; `Ok(false)` never occurs |
| Utils.ValidationTestScenarios | packages/src/lib.rs:77-83 | [1,2,3] is accepted; [] and 200_000_000 zero bytes are rejected |
| MemoryManagement.TotalOverRemove | packages/src/memory_manager.rs:49-51 | the capacity sum does not depend on the order in which the map's values are visited |
| MemoryManagement.TotalCapacityInsert | packages/src/memory_manager.rs:22-28 | inserting a buffer under an unused id adds its capacity to the total |
| MemoryManagement.TotalCapacityRemove | packages/src/memory_manager.rs:44-46 | removing a live id subtracts its capacity from the total; removing a dead id leaves the total unchanged |
| MemoryManagement.MemoryManager.constructor | packages/src/memory_manager.rs:13-19 | no buffers, `next_id == 0`, invariant established |
| MemoryManagement.MemoryManager.AllocateBuffer | packages/src/memory_manager.rs:22-28 | returns the old `next_id`, which was not live; `next_id` goes up by one; the new buffer is empty with capacity `size`; the count goes up by one; the total goes up by `size`; every live id stays below `next_id` |
| MemoryManagement.MemoryManager.GetBufferLen | packages/src/memory_manager.rs:39-41 | 0 for an id that is not live; otherwise at most that buffer's capacity |
| MemoryManagement.MemoryManager.DeallocateBuffer | packages/src/memory_manager.rs:44-46 | returns true iff the id was live; afterwards the id is gone and every other buffer and `next_id` are unchanged; the total drops by the freed capacity |
| MemoryManagement.MemoryManager.GetTotalAllocated | packages/src/memory_manager.rs:49-51 | the loop over the live buffers, in any order, returns the sum of their capacities |
| MemoryManagement.MemoryManager.GetBufferCount | packages/src/memory_manager.rs:54-56 | the number of live ids; the `as u32` never truncates because the count is at most `next_id` |
| Provider.LowerChar | packages/src/cloud_storage_bridge.rs:236 | ASCII upper-case letters map to their lower-case letters; every other character is kept; the result is never an upper-case letter |
| Provider.ToLower | packages/src/cloud_storage_bridge.rs:236 | same length; each character is lower-cased on its own |
| Provider.DetectProvider | packages/src/cloud_storage_bridge.rs:235-251 | total: always one of the five provider tags |
| Provider.FirstMatchIsFirst | packages/src/cloud_storage_bridge.rs:238-250 | the reference classifier returns the tag of the first matching rule, and "unknown" when no rule matches |
| Provider.DetectProviderFollowsRules | packages/src/cloud_storage_bridge.rs:235-251 | `detect_provider` is the first-match classifier over the four rules in source order, applied to the lower-cased URL |
| Provider.DetectProviderIgnoresCase | packages/src/cloud_storage_bridge.rs:236 | URLs that agree position by position up to ASCII case get the same tag |
| Provider.DetectProviderOfLowered | packages/src/cloud_storage_bridge.rs:236 | lower-casing a URL first does not change its tag |
| Provider.AwsTakesPrecedence | packages/src/cloud_storage_bridge.rs:238-239 | a URL containing "s3." or "amazonaws.com" is "aws-s3", whatever else it contains |
| Provider.UnknownWithoutKeyCharacters | packages/src/cloud_storage_bridge.rs:238-250 | a URL whose lower-cased form has none of 'z', '3', '2', 'g', 'w' matches no rule and is "unknown" |
| Provider.DetectsS3Bucket | packages/src/cloud_storage_bridge.rs:238-239 | "https://mybucket.s3.amazonaws.com/key" is "aws-s3" |
| Provider.DetectsUnknown | packages/src/cloud_storage_bridge.rs:248-250 | "https://example.com/file" is "unknown" |
| Provider.DetectsS3BeforeR2 | packages/src/cloud_storage_bridge.rs:238-241 | "https://s3.eu.r2.dev/obj" is "aws-s3", because the S3 rule comes before the R2 rule |
| Provider.DetectsUpperCaseR2 | packages/src/cloud_storage_bridge.rs:236-241 | "HTTPS://PUB-1.R2.DEV/OBJ" is "cloudflare-r2" |
| Chunking.Chunks | packages/src/cloud_storage_bridge.rs:226-230 | the chunks concatenate back to the data; there are no chunks exactly when the data is empty |
| Chunking.ChunkSizes | packages/src/cloud_storage_bridge.rs:226-230 | every chunk is non-empty and at most `chunk_size` long; every chunk but the last is exactly `chunk_size` long |
| Chunking.ChunkCount | packages/src/cloud_storage_bridge.rs:226-230 | there are ceil(length / chunk_size) chunks |
| Chunking.ChunksFrom | packages/src/cloud_storage_bridge.rs:226-230 | the chunks after position i are the chunk at i followed by the chunks after it |
| Chunking.ChunkAt | packages/src/cloud_storage_bridge.rs:226-230 | chunk k is the slice from k * chunk_size to min(k * chunk_size + chunk_size, length), so the chunks have no gaps or overlaps and follow byte order |
| Chunking.ChunksExample | packages/src/cloud_storage_bridge.rs:226-230 | ten elements in chunks of three give lengths 3, 3, 3, 1 with the expected contents |
| CloudStorage.Fetch | packages/src/cloud_storage_bridge.rs:90-133 | hit: returns the cached bytes and leaves the cache unchanged; miss: a transport failure propagates its reason and leaves the cache unchanged, and a success returns the body and adds exactly the verbatim URL, mapped to the body, the status (200 when absent) and `detect_provider(url)`; every existing entry is kept; the size grows by one exactly on a successful miss |
| CloudStorage.HitIgnoresTransport | packages/src/cloud_storage_bridge.rs:94-97 | a hit makes no transport call: its outcome is the same for every transport |
| CloudStorage.FailureKeepsCache | packages/src/cloud_storage_bridge.rs:107-131 | a failed fetch leaves the cache exactly as it was |
| CloudStorage.RefetchIsHit | packages/src/cloud_storage_bridge.rs:94-133 | after a successful fetch, fetching the same URL again is a hit; it returns the same bytes and leaves the cache unchanged, whatever the transport would now answer |
| CloudStorage.FetchKeepsConsistent | packages/src/cloud_storage_bridge.rs:120-131 | a fetch keeps every cached URL holding exactly what a GET of that URL string produced |
| CloudStorage.CacheIsTransparent | packages/src/cloud_storage_bridge.rs:90-133 | with a consistent cache, `fetch_cloud_data` returns the same result as it would with an empty cache |
| CloudStorage.CloudDataBuffer.Length | packages/src/cloud_storage_bridge.rs:279-281 | the number of bytes held |
| CloudStorage.CloudDataBuffer.Slice | packages/src/cloud_storage_bridge.rs:294-298 | never fails; with e = min(end, len), returns e - start bytes, or none when e <= start, each equal to `data[start + i]` |
| CloudStorage.SliceInBounds | packages/src/cloud_storage_bridge.rs:294-298 | for start <= end <= len, the slice is exactly `data[start..end]` |
| CloudStorage.SliceClamps | packages/src/cloud_storage_bridge.rs:294-298 | an end past the length stops at the length; a start at or after the end gives an empty slice; a slice from 0 is the prefix up to min(end, len) |
| CloudStorage.CloudStorageBridge.constructor | packages/src/cloud_storage_bridge.rs:81-87 | keeps the transport and starts with an empty, consistent cache |
| CloudStorage.CloudStorageBridge.FetchCloudData | packages/src/cloud_storage_bridge.rs:90-133 | the result and the new cache are exactly `Fetch` of the old cache; the cache stays consistent |
| CloudStorage.CloudStorageBridge.FetchCloudMetadata | packages/src/cloud_storage_bridge.rs:137-166 | issues HEAD; a failure propagates its reason; on success returns the raw status, the headers passed through, and `detect_provider(url)`; the cache is untouched |
| CloudStorage.CloudStorageBridge.ClearCache | packages/src/cloud_storage_bridge.rs:170-173 | the cache becomes empty and the cache size is 0 |
| CloudStorage.CloudStorageBridge.GetCacheSize | packages/src/cloud_storage_bridge.rs:176-178 | the number of cached URLs, and 0 exactly when the cache is empty |
| CloudStorage.CloudStorageBridge.GetCachedUrls | packages/src/cloud_storage_bridge.rs:181-187 | holds exactly the cached URLs, each once, in unspecified order; its length is the cache size |
| CloudStorage.CloudStorageBridge.StreamCloudData | packages/src/cloud_storage_bridge.rs:190-233 | a GET that bypasses the cache; a failure propagates its reason; on success the loop produces exactly `Chunks(body, chunk_size)` |

`MemoryManagement.AllocationScenario` replays the allocation test in packages/src/lib.rs:54-59 and adds a second release, which returns false. `CloudStorage.CacheScenario` checks a cache session: fetch, count, re-fetch, list, clear.

## Left out

- JavaScript interop and async plumbing: `js_sys::Reflect`, `Function::call2`, the `JsFuture` awaits and `Uint8Array` conversion.
  - The transport is a deterministic function from request to reply. It does not change over time, so every cached entry always equals a fresh GET of its URL, and the model's cache never serves stale bytes. In the source, a cached URL keeps returning the bytes of its first fetch after the remote object changes. The model does not capture that.
  - A reply arrives in one atomic step.
  - Any error thrown along the way (the call, the promise, a missing `arrayBuffer`) is a single `Failure` carrying a string reason.
- CloudStorage.CloudStorageBridge.StreamCloudData: `data.chunks(0)` panics after a successful GET, so the model requires `chunkSize > 0`. With chunk_size 0, a failed GET still returns its error in Rust, and the model does not cover that case.
- CloudStorage.Fetch: a response whose `status` cannot be read (the property read throws) is not modelled. Only `fetch_cloud_data` reads `status` (packages/src/cloud_storage_bridge.rs:124); `stream_cloud_data` never does. Such a response makes the fetch fail but lets the stream succeed. In the model, both read the same `Reply`, so there is no reply with that outcome: a `Failure` makes both fail, and a `Response` makes both succeed.
- CloudStorage.Fetch: does not model the float-to-`u16` status cast (`as_f64().unwrap_or(200.0) as u16`). The status is an optional `u16` that defaults to 200. In Rust, a fractional status is truncated toward zero (200.9 becomes 200), NaN becomes 0, and a negative status or one above 65535 saturates to 0 or 65535. The model does not represent these cases.
- CloudStorage.CloudStorageBridge.FetchCloudMetadata: the metadata status is whatever JavaScript value the response carries. The model limits it to an optional `u16`. Headers are an uninterpreted value passed through unchanged.
- Provider.ToLower: lower-cases ASCII letters only. Rust's `to_lowercase` is full Unicode. The model says nothing about non-ASCII letters that have lower-case forms.
- Logging: the `console_log!` calls and the `Drop` log line of `CloudDataBuffer` are output only.
- `CloudDataBuffer::data`, `source_url` and `provider` return copies of the fields. The model has no copies, because its values are immutable.
- `get_buffer_ptr` returns a raw pointer. Memory addresses are not modelled.
- MemoryManagement.MemoryManager.AllocateBuffer:
  - The capacity is exactly the size hint. `Vec::with_capacity` promises at least that, and in practice gives exactly that for `u8`.
  - Allocation failure (an abort) is not modelled.
  - The caller must keep `next_id < u32::MAX`. In Rust, a further allocation panics in debug builds and wraps to reused ids in release builds.
- MemoryManagement.MemoryManager.GetTotalAllocated: the sum is unbounded. A `usize` overflow of the sum is not modelled.
- Concurrency: overlapping fetches of the same URL, last-write-wins insertion and cancellation mid-await are not modelled, because each operation is one atomic step.
- packages/src/query_engine.rs is not part of this model.
- The rest of packages/src/utils.rs is not part of this model: performance logging, browser and memory information, benchmark timers. These are clock, float and browser I/O.
- packages/src/lib.rs (panic hook, version and build metadata) is not part of this model. Its tests are replayed as scenarios.
