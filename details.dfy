/** What the right-hand panel shows (the details mode), how a key press is
    dispatched in the render loop, and the footer line. */
module Details {
  import opened Basics

  /** `DetailsMode`; `TimelineItems` is the default. */
  datatype DetailsMode = ReadReceipts | TimelineItems | Events | LinkedChunk

  const DefaultDetailsMode: DetailsMode := TimelineItems

  /** The terminal key codes the loop tells apart. */
  datatype KeyCode = Char(c: char) | Esc | Up | Down | OtherKey

  datatype KeyEventKind = Press | Repeat | Release

  /** What a key press asks the application to do. */
  datatype Action =
    | Quit
    | SelectNext
    | SelectPrevious
    | StartSync
    | StopSync
    | ToggleSendQueue
    | SendMessage
    | ReactToLatest
    | ShowDetails(mode: DetailsMode)
    | BackPaginate
    | MarkAsRead
    | Ignore

  /** The key dispatch of the render loop. Only presses count; `b` is honoured
      in the timeline-items and linked-chunk modes only, `m` in the
      read-receipts mode only; `r`, `t`, `e`, `l` switch the details mode from
      any mode. */
  function Dispatch(kind: KeyEventKind, code: KeyCode, mode: DetailsMode): (a: Action)
    ensures kind != Press ==> a == Ignore
    ensures a.BackPaginate? <==> kind == Press && code == Char('b') && (mode == TimelineItems || mode == LinkedChunk)
    ensures a.MarkAsRead? <==> kind == Press && code == Char('m') && mode == ReadReceipts
    ensures a.Quit? <==> kind == Press && (code == Char('q') || code == Esc)
    ensures a.ShowDetails? <==> kind == Press && code.Char? && code.c in {'r', 't', 'e', 'l'}
    ensures kind == Press && (code == Char('j') || code == Down) ==> a == SelectNext
    ensures kind == Press && (code == Char('k') || code == Up) ==> a == SelectPrevious
    ensures kind == Press && code == Char('s') ==> a == StartSync
    ensures kind == Press && code == Char('S') ==> a == StopSync
    ensures kind == Press && code == Char('Q') ==> a == ToggleSendQueue
    ensures kind == Press && code == Char('M') ==> a == SendMessage
    ensures kind == Press && code == Char('L') ==> a == ReactToLatest
    ensures kind == Press && code.Char? && code.c in {'r', 't', 'e', 'l'} ==> ModeKey(a.mode) == code.c
    ensures kind == Press && code == OtherKey ==> a == Ignore
    ensures kind == Press && code.Char? && code.c !in {'q', 'j', 'k', 's', 'S', 'Q', 'M', 'L', 'r', 't', 'e', 'l', 'b', 'm'} ==>
              a == Ignore
    ensures kind == Press && code == Char('b') && mode != TimelineItems && mode != LinkedChunk ==> a == Ignore
    ensures kind == Press && code == Char('m') && mode != ReadReceipts ==> a == Ignore
  {
    if kind != Press then Ignore
    else
      match code
      case Esc => Quit
      case Down => SelectNext
      case Up => SelectPrevious
      case OtherKey => Ignore
      case Char(c) =>
        if c == 'q' then Quit
        else if c == 'j' then SelectNext
        else if c == 'k' then SelectPrevious
        else if c == 's' then StartSync
        else if c == 'S' then StopSync
        else if c == 'Q' then ToggleSendQueue
        else if c == 'M' then SendMessage
        else if c == 'L' then ReactToLatest
        else if c == 'r' then ShowDetails(ReadReceipts)
        else if c == 't' then ShowDetails(TimelineItems)
        else if c == 'e' then ShowDetails(Events)
        else if c == 'l' then ShowDetails(LinkedChunk)
        else if c == 'b' && (mode == TimelineItems || mode == LinkedChunk) then BackPaginate
        else if c == 'm' && mode == ReadReceipts then MarkAsRead
        else Ignore
  }

  /** The details mode after an action: only the four mode keys change it. */
  function ModeAfter(mode: DetailsMode, a: Action): (after: DetailsMode)
    ensures a.ShowDetails? ==> after == a.mode
    ensures !a.ShowDetails? ==> after == mode
  {
    if a.ShowDetails? then a.mode else mode
  }

  /** Mode switches are plain assignments: each mode key reaches its mode from
      every mode, and once there, every other key leaves the mode alone. */
  lemma ModeKeysReachEveryMode(from: DetailsMode, to: DetailsMode, code: KeyCode)
    ensures ModeAfter(from, Dispatch(Press, Char(ModeKey(to)), from)) == to
    ensures (code.Char? ==> code.c !in {'r', 't', 'e', 'l'}) ==> ModeAfter(to, Dispatch(Press, code, to)) == to
  {
  }

  /** The key that shows `mode`. */
  function ModeKey(mode: DetailsMode): (key: char) {
    match mode
    case ReadReceipts => 'r'
    case TimelineItems => 't'
    case Events => 'e'
    case LinkedChunk => 'l'
  }

  /** The opening every help line shares. */
  const HelpOpening: string := "\nUse j/k to move, s/S to start/stop the sync service, "

  /** The help line of each mode: the shared opening, then the mode's own
      keys. */
  function HelpText(mode: DetailsMode): (text: string)
    ensures HelpOpening <= text
  {
    HelpOpening + HelpTail(mode)
  }

  function HelpTail(mode: DetailsMode): (tail: string) {
    match mode
    case ReadReceipts =>
      "m to mark as read, t to show the timeline, e to show events."
    case TimelineItems =>
      "r to show read receipts, e to show events, Q to enable/disable the send queue, M to send a message, L to like the last message."
    case Events =>
      "r to show read receipts, t to show the timeline"
    case LinkedChunk =>
      "r to show read receipts, t to show the timeline, e to show events"
  }

  /** The keys each help line names, in the order it names them. */
  function HelpKeys(mode: DetailsMode): (keys: seq<char>) {
    match mode
    case ReadReceipts => ['j', 'k', 's', 'S', 'm', 't', 'e']
    case TimelineItems => ['j', 'k', 's', 'S', 'r', 'e', 'Q', 'M', 'L']
    case Events => ['j', 'k', 's', 'S', 'r', 't']
    case LinkedChunk => ['j', 'k', 's', 'S', 'r', 't', 'e']
  }

  /** Every key a help line advertises does something in that mode. */
  lemma HelpIsAccurate(mode: DetailsMode, k: nat)
    requires k < |HelpKeys(mode)|
    ensures Dispatch(Press, Char(HelpKeys(mode)[k]), mode) != Ignore
  {
  }

  /** The footer: the status message while one is set, otherwise the help
      line of the current details mode. */
  function Footer(status: Option<string>, mode: DetailsMode): (text: string)
    ensures status.Some? ==> text == status.value
    ensures status.None? ==> text == HelpText(mode)
  {
    match status
    case Some(s) => s
    case None => HelpText(mode)
  }
}
