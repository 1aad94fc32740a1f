# pykernel_mcp in Dafny

pykernel_mcp is an MCP server. Its tools run Python code in a persistent
IPython kernel and return the results as MCP content parts. There are two
variants of the server, and the model takes a `Variant` parameter for them:

- `Packaged` is `src/pykernel_mcp/server.py`. It collects PNG images,
  primes every new kernel with imports and `%matplotlib inline`, and offers
  `install_package`.
- `Standalone` is `pykernel_mcp.py`. It has no images and no priming, its
  success line says "(no output)", and it offers `kernel_status`.

The model covers three parts of the server.

- **The IOPub fold** (module `Aggregation`). `execute_python` reads messages
  until its request goes idle or 30 seconds of silence pass.
  - Messages whose parent id is not the request's id are skipped.
  - `stream` text and `execute_result` `text/plain` go to the outputs.
    A missing `text/plain` becomes `""`.
  - An `error` message's traceback lines go to the errors.
  - In the packaged server, a `display_data` message's PNG goes to the
    images.
  - An idle `status` message ends the loop.
  - A silence adds the timeout line to the errors and ends the loop.
  - A missing content key raises `KeyError` and ends the call.

  The recursive function `Drain` specifies the loop. `CollectReplies` is the
  loop itself, proved equal to it. Reference functions `AllOutputs`,
  `AllErrors` and `AllImages` describe the same fold one message at a time.
- **Result assembly** (module `Rendering`). The parts are built in a fixed
  order:
  1. the kernel info line;
  2. the executed code;
  3. one part per image;
  4. the output part and the errors part, each only when its list is
     non-empty;
  5. the success line, only when nothing was collected;
  6. the HTML page.

  The page is modelled by its structure:
  - the header, the code and the images block;
  - an output section and an errors section, each shown only when its
    joined text is non-empty;
  - a success line, shown only when both texts are empty.

  Markup, styling and escaping are left out.
- **The kernel holder** (module `Session`). `KernelState` has these fields:
  - `km` and `kc`, modelled as `hasManager` and `hasClient`;
  - the kernel id and the start time;
  - a ghost log of the code sent to the current kernel.

  It has four operations:
  - `EnsureStarted` starts and primes a kernel when none is held.
  - `ExecutePython` and `InstallPackage` run code on it.
  - `RestartKernel` drops the held kernel and starts a new one.
  - `KernelStatus` reports the kernel id and uptime.

  The pure functions `Start`, `Execute`, `Restart` and `StatusOf` specify
  these methods, and the lemmas are stated about them.

Inputs the server gets from outside are parameters of the model:
- fresh uuids (`freshId`, taken from outside the set of kernel ids held so far);
- clock readings (`now`, `later`, as whole seconds);
- the outcome of starting a kernel (`StartOutcome`);
- the id that `kc.execute` returns (`requestId`);
- the stream of IOPub messages (`events`).

The model follows the code in these points:
- The holder takes no lock.
- There is no status enumeration; only `km`/`kc` being set or `None` counts.
- The end of the event sequence stands for 30 seconds of silence on the
  channel, the only receive failure the loop catches.
- A reply that lacks a content key raises `KeyError` and aborts the tool.
  The code does not skip such a reply.

## Model

| member | source | states |
|---|---|---|
| Aggregation.Drain | src/pykernel_mcp/server.py:183-207 | It never takes more events than it is given. The collected outputs, errors and images only grow: the accumulator is a prefix of each. |
| Aggregation.CollectReplies | src/pykernel_mcp/server.py:177-207 | The `while True` loop returns exactly the outputs, errors, images, ending and event count of `Fold`, for both variants (also pykernel_mcp.py:71-100). |
| Aggregation.StepAgrees | src/pykernel_mcp/server.py:187-203 | One message adds exactly the reference per-message output, error lines and image to the lists. It ends the loop exactly when it is terminal: a receive timeout, its request's idle status, or a reply missing a key. |
| Aggregation.DrainCollects | src/pykernel_mcp/server.py:193-207 | The collected lists are the accumulator followed by every own-request output, error and image in the consumed messages, in arrival order. On timeout the errors end with the timeout line. |
| Aggregation.DrainStopsAtFirstTerminal | src/pykernel_mcp/server.py:202-207 | The loop ends at the first terminal event, with that event's ending. A terminal event is a receive timeout, its request's idle status, or a reply lacking a key. No earlier consumed event is terminal. With no terminal event the loop takes every event and times out. |
| Aggregation.EndsIdleIff | src/pykernel_mcp/server.py:202-203 | The fold ends idle if and only if some own-request idle status comes before any timeout or missing key. |
| Aggregation.DrainIgnoresForeign | src/pykernel_mcp/server.py:187-188 | Removing every message with another parent id leaves the collected lists and the ending unchanged. |
| Aggregation.StaleRepliesSkipped | src/pykernel_mcp/server.py:187-188 | Replies to earlier requests queued before this one's replies are consumed and skipped. The fold of the rest is unchanged except for the event count. |
| Aggregation.StandaloneKeepsNoImages | pykernel_mcp.py:89-96 | The standalone fold never collects an image, because `display_data` is ignored there. |
| Text.JoinEmptyIff | src/pykernel_mcp/server.py:252-253 | A `"\n"` join is empty if and only if the list is empty or is the single empty string. |
| Text.Prefix | src/pykernel_mcp/server.py:215 | `id[:8]` is a prefix of the id, of length min(8, length). |
| Rendering.RenderImages | src/pykernel_mcp/server.py:83-89 | The loop builds the images block: empty for no images, else the label, one tag per image in order, and the closing tag. |
| Rendering.HtmlResult | src/pykernel_mcp/server.py:82-138 | The page holds the code, the images block, an output section if and only if the output text is non-empty, an errors section if and only if the error text is non-empty, and the success line if and only if both are empty. |
| Rendering.AssembleParts | src/pykernel_mcp/server.py:209-266 | The appends build exactly `Layout` (also pykernel_mcp.py:103-180). |
| Rendering.LayoutEnds | src/pykernel_mcp/server.py:209-266 | The parts start with the kernel info and the executed code and end with the HTML page. |
| Rendering.LayoutOrdered | src/pykernel_mcp/server.py:209-266 | The kinds always come in the order info, code, images, output, errors, success, page. |
| Rendering.LayoutImages | src/pykernel_mcp/server.py:223-233 | The image parts carry exactly the collected PNGs, in order. There are none in the standalone variant. |
| Rendering.LayoutPresence | src/pykernel_mcp/server.py:235-250 | There is an output part if and only if outputs were collected, and an errors part if and only if errors were. The success part, with the variant's text, appears if and only if nothing was collected. |
| Rendering.PageSections | src/pykernel_mcp/server.py:82-138 | The page for a fold has the kernel header in the standalone variant only. Its output and errors sections appear exactly when the joined text is non-empty. Its success line appears exactly when both are empty. Its images block carries every PNG. |
| Rendering.BlankOutputShownAsSuccess | src/pykernel_mcp/server.py:235-253 | A single empty output yields an `Output` part, yet the page shows no output section and shows the success line. |
| Session.StartBehaviour | src/pykernel_mcp/server.py:66-76 | The intended start does nothing while a kernel is held. Otherwise a ready start holds a primed kernel with the fresh id and time. A failed start changes nothing. Consistency is kept throughout. |
| Session.AsWrittenFailedSpawnIsNeverRetried | src/pykernel_mcp/server.py:66-69 | As written, a raising `start_kernel` leaves a manager without a client, and every later start is a no-op. Meanwhile the standalone `kernel_status` reports the old id as running (pykernel_mcp.py:192-199). |
| Session.AsWrittenUnreadyKernelIsNeverPrimed | src/pykernel_mcp/server.py:66-76 | As written, a raising `wait_for_ready` keeps an unprimed kernel with the old id, and no later start primes it. |
| Session.AsWrittenZombieFailsUntilRestart | src/pykernel_mcp/server.py:66-177 | As written, after a raising `start_kernel` every execution reaches the unset `kc` and fails, whatever its code and replies. A `restart_kernel` whose start succeeds then holds a primed kernel with the fresh id (server.py:277-286). |
| Session.RetryAfterFailedStart | src/pykernel_mcp/server.py:66-76 | In the intended version, the call after a failed start tries again and then holds a primed kernel. |
| Session.ExecuteKeepsSession | src/pykernel_mcp/server.py:175-177 | On a running kernel an execution only appends its code to what was sent. The id and start time stay the same. |
| Session.ExecuteFirstStartsKernel | src/pykernel_mcp/server.py:175-215 | The first execution starts the kernel, sends the priming code, then the request. Its first part reports the new id's prefix and the uptime. |
| Session.ExecuteFailsOnlyWhen | src/pykernel_mcp/server.py:168-207 | An execution fails if and only if the start fails or a reply lacks a key. It never finds `kc` unset. |
| Session.RestartGivesFreshKernel | src/pykernel_mcp/server.py:277-286 | A restart succeeds if and only if the start does. It then holds the fresh id, only the priming code has been sent, and the reply names the new id. A failed restart holds no kernel (also pykernel_mcp.py:202-216). |
| Session.StatusStable | pykernel_mcp.py:184-200 | Two status reads agree on whether a kernel runs and on its id. The uptime does not decrease. |
| Session.KernelState.constructor | src/pykernel_mcp/server.py:55-61 | A new holder has no manager or client, but already has an id and a start time. |
| Session.KernelState.EnsureStarted | src/pykernel_mcp/server.py:66-76 | It updates the fields exactly as `Start` says and keeps the holder valid. It records the fresh id only when it starts a kernel. |
| Session.ExecutePython | src/pykernel_mcp/server.py:168-268 | Its new state and result are exactly `Execute` of the old state (also pykernel_mcp.py:55-182). |
| Session.InstallPackage | src/pykernel_mcp/server.py:271-274 | It is exactly an execution of `%pip install ` followed by the package name. |
| Session.RestartKernel | src/pykernel_mcp/server.py:277-286 | Its new state and reply are exactly `Restart` of the old state. A successful restart holds a kernel id different from the one before (pykernel_mcp.py:208). |
| Session.KernelStatus | pykernel_mcp.py:184-200 | It reports "no kernel" exactly when no manager is held; otherwise the full id and the uptime. |

## Left out

- Asynchrony and concurrency are left out: each modelled call runs to completion alone. In the source, concurrent `execute_python` calls can interleave at every `await` on the same IOPub queue. A message one loop reads is then skipped by the other loop's parent-id filter, so a call can miss its own idle status and time out. A call that arrives while `start_kernel` is still awaited finds `km` set and `kc` unset and fails at src/pykernel_mcp/server.py:177. None of this is modelled.
- The ZeroMQ transport, the kernel process and `start_channels` are left out. Only their outcome, ready or raising, is a parameter.
- The 30-second `asyncio.wait_for` is left out. The end of the event sequence stands for a silent channel, and every message restarts the wait, as in the source.
- `uuid.uuid4()` is left out. Fresh ids are parameters. The `uri` fields of embedded resources, which use further uuids, are not modelled.
- Session.KernelStatus: the uptime is a whole number, and the `{uptime:.1f}` formatting and the status text layout are not modelled. The same holds for the kernel info line in `Rendering.KernelInfo`.
- Rendering.HtmlResult: the page is modelled by its sections and their presence. The HTML markup, styles, script and `html.escape` are not modelled.
- The Markdown framing of the text parts is not modelled. For example, the code fence around the executed code is left out.
- `shutdown_kernel` raising during a restart is not modelled. A restart always drops the held kernel first.
- The unused fields `session_api_url` and `session_id` (src/pykernel_mcp/server.py:60-61) are left out, and so are the three module-level file reads at src/pykernel_mcp/server.py:31-34. None of them touches the core.
- Receive failures other than a timeout are not modelled. The loop catches only `asyncio.TimeoutError` (src/pykernel_mcp/server.py:205, pykernel_mcp.py:98), so any other exception from `get_iopub_msg` would leave `execute_python` uncaught.
- A message without `parent_header`, `header` or `content` is not modelled. Every event has these fields, and only the content keys may be missing.
- Session.KernelState.EnsureStarted, Session.Execute, Session.ExecutePython, Session.InstallPackage, Session.Restart and Session.RestartKernel follow the corrected start, in which a failed start keeps nothing. As written, a raising start leaves `km` set (src/pykernel_mcp/server.py:68-69), also inside `restart_kernel` (src/pykernel_mcp/server.py:285). The as-written behaviour is `Session.StartAsWritten`, described under Findings.
- Session.ExecuteFailsOnlyWhen and Session.RestartGivesFreshKernel are stated for the corrected start. As written, the missing client can be met, and a failed restart still holds `km`. `Session.AsWrittenZombieFailsUntilRestart` states the as-written case.

## Findings

| source | as written | input that shows it | evidently intended | confidence | as-written member | corrected member |
|---|---|---|---|---|---|---|
| src/pykernel_mcp/server.py:66-76 (also pykernel_mcp.py:42-51) | `km` is assigned before `start_kernel` and `wait_for_ready` run. When either raises, `km` stays set, so every later `ensure_started` does nothing until `restart_kernel` clears `km`. | `start_kernel` raises on the first `execute_python`. Every later `execute_python` then finds `km` set and `kc` unset and fails, until a `restart_kernel`. Meanwhile the standalone `kernel_status` reports the old id as running. If `wait_for_ready` raises instead, the kernel is kept unprimed with the old id. | A failed start leaves the holder as it was, so that the next call tries again. | not executed | Session.StartAsWritten (shown by Session.AsWrittenFailedSpawnIsNeverRetried, Session.AsWrittenZombieFailsUntilRestart and Session.AsWrittenUnreadyKernelIsNeverPrimed) | Session.Start (proved by Session.RetryAfterFailedStart and Session.StartBehaviour) |
