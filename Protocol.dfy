/** The IOPub messages a Jupyter kernel publishes, as the servers see them,
    and the constants both servers share. */
module Protocol {
  import opened Wrappers

  /** The two server programs: the packaged server under src/pykernel_mcp,
      which handles images and primes the kernel, and the standalone script. */
  datatype Variant = Packaged | Standalone

  /** The keys of a message's `content` dictionary that the servers read;
      `None` is a key the kernel left out. `data` maps MIME types to payloads. */
  datatype Content = Content(
    text: Option<string>,
    data: Option<map<string, string>>,
    traceback: Option<seq<string>>,
    executionState: Option<string>)

  /** What one receive on the IOPub channel yields: a message (the `msg_id`
      of its parent header, if any, its `msg_type` and its content), or the
      expiry of the 30-second wait. */
  datatype Event =
    | Msg(parentId: Option<string>, msgType: string, content: Content)
    | Timeout

  /** The error line a receive timeout adds. */
  const TimeoutLine: string := "Execution timed out after 30 seconds"

  /** Priming code the packaged server runs on every fresh kernel. */
  const Imports: string := "import numpy as np\nimport pandas as pd\nimport matplotlib.pyplot as plt\n"
  const InlinePlots: string := "%matplotlib inline"

  /** The code that `install_package` executes precedes the package name. */
  const PipInstall: string := "%pip install "

  /** A message answers a request when its parent header carries the request's id. */
  predicate Answers(requestId: string, ev: Event)
  {
    ev.Msg? && ev.parentId == Some(requestId)
  }
}
