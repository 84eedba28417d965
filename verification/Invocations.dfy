/** What the model can ask for and what comes back: parsed tool invocations, preview snapshots, outcomes
    and errors. Shared by AgentCore and the patch engine. */
module Invocations {
  import opened Options

  newtype byte = x: int | 0 <= x < 256

  type Bytes = seq<byte>

  const LF: byte := 10

  /** One edit of a patch; texts are their UTF-8 bytes. */
  datatype PatchTool =
    | Add(path: string, content: Bytes)
    | Update(path: string, before: Bytes, after: Bytes)

  /** A file as it was at preview time; None for an Add. */
  datatype PreviewContent = PreviewContent(path: string, content: Option<Bytes>)

  datatype PatchPreview = PatchPreview(
    targets: set<string>,
    addedLines: nat,
    removedLines: nat,
    editCount: nat,
    autoApprove: bool,
    notRevertible: Option<string>)

  datatype ReadOnlyTool =
    | List(path: string, recursive: bool, maxEntries: nat, includeHidden: bool)
    | Read(path: string, lineRange: Option<(nat, nat)>)
    | Search(pattern: string, pathPrefix: Option<string>, caseSensitive: bool, maxResults: nat)

  datatype PatchInvocation = PatchInvocation(edits: seq<PatchTool>)
  datatype CommandInvocation = CommandInvocation(argv: seq<string>)

  datatype PatchError =
    | PatchRejected
    | Conflict(path: string)
    | NoMatch(path: string)
    | AmbiguousMatch(path: string, matchCount: nat)
    | AddOnExistingFile(path: string)
    | ParentDirMissing(path: string)
    | UpdateOnMissingFile(path: string)
    | ExcludedPath(path: string, reason: string)
    | IgnoredParent(path: string)
    | TooManyEdits(count: nat)
    | MultipleEditsSamePath(path: string)
    | FileTooLarge(path: string)
    | PatchIoError(path: string, message: string)
    | CrossDeviceRename(path: string)

  datatype CommandError = CommandRejected | SpawnFailed(message: string) | EmptyArgv

  datatype ToolExecutionError =
    | OutsideWorkspace
    | NotUtf8
    | Binary
    | IoError(message: string)
    | ArgumentsParseFailed(message: string)
    | ArgumentsTooLarge
    | UnknownTool
    | TurnToolCallLimitExceeded
    | PatchFailed(patch: PatchError)
    | CommandFailed(command: CommandError)

  datatype Result<+T, +E> = Ok(value: T) | Err(error: E)

  type ToolOutcome = Result<string, ToolExecutionError>
}
