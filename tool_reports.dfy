/** Report texts that both servers return for the same situations. */
module ToolReports {
  import opened IopubOutput

  const NotConnected: string := CrossMark + " Not connected to kernel. Use connect_to_kernel() first."
  const NotConnectedAny: string := CrossMark + " Not connected to any kernel"
  const NoOutput: string := CheckMark + " Code executed successfully (no output)"
  const Disconnected: string := CheckMark + " Disconnected from kernel"

  /** The report for an exception raised while executing: `str(e)` after the prefix. */
  function ExecutionFailed(message: string): string {
    CrossMark + " Execution failed: " + message
  }

  function NotFound(path: string): string {
    CrossMark + " Connection file not found: " + path
  }

  /** The report for an exception raised while connecting. */
  function FailedToConnect(message: string): string {
    CrossMark + " Failed to connect: " + message
  }

  function DisconnectFailed(message: string): string {
    CrossMark + " Error during disconnection: " + message
  }
}
