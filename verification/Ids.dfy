/**
  The identifiers the workers compose. The model uses structured keys; `RowId`, `EventId` and
  `TaskId` spell them as the program does, and distinct keys are spelled differently.
 */
module Ids {
  import opened Text

  /** A task: either the turn of a routed event, or a job handed to another agent. */
  datatype TaskKey = RoutedTask(update: int) | JobTask(token: string)

  /** An outbox row. */
  datatype RowKey =
    | InputRow(update: int)
    | RoutedRow(update: int)
    | OutputRow(update: int)
    | DeadLetterRow(update: int)
    | CreatedRow(token: string)
    | ResultRow(task: TaskKey)

  /** An event, as its envelope names it. */
  datatype EventKey =
    | InputEvent(update: int)
    | RoutedEvent(update: int)
    | OutputEvent(update: int)
    | DeadLetterEvent(update: int)
    | CreatedEvent(token: string)
    | ResultEvent(task: TaskKey)

  function Integer(n: int): string {
    if n < 0 then "-" + Decimal(-n) else Decimal(n)
  }

  /** An integer as a piece of an identifier, which may hold no sign. */
  function NumericIdToken(id: int): string {
    if id < 0 then "n" + Decimal(-id) else Decimal(id)
  }

  function InboundId(update: int): string {
    "telegram-update-" + Integer(update)
  }

  function TaskId(t: TaskKey): string {
    match t
    case RoutedTask(update) => "task-routed-" + InboundId(update)
    case JobTask(token) => "task-job-agentmsg-" + token
  }

  function EventId(k: EventKey): string {
    match k
    case InputEvent(update) => InboundId(update)
    case RoutedEvent(update) => "routed-" + InboundId(update)
    case OutputEvent(update) => "output-routed-" + InboundId(update)
    case DeadLetterEvent(update) => "dlq-" + InboundId(update)
    case CreatedEvent(token) => "agent-task-created-job-agentmsg-" + token
    case ResultEvent(task) => "task-result-" + TaskId(task)
  }

  function RowId(k: RowKey): string {
    match k
    case InputRow(update) => "outbox-" + InboundId(update)
    case RoutedRow(update) => "outbox-routed-" + InboundId(update)
    case OutputRow(update) => "outbox-output-routed-" + InboundId(update)
    case DeadLetterRow(update) => "dlq-" + InboundId(update)
    case CreatedRow(token) => "outbox-task-job-agentmsg-" + token
    case ResultRow(task) => "outbox-task-result-" + TaskId(task)
  }

  /** The row whose publication carries the event `k`. */
  function RowOf(k: EventKey): RowKey {
    match k
    case InputEvent(update) => InputRow(update)
    case RoutedEvent(update) => RoutedRow(update)
    case OutputEvent(update) => OutputRow(update)
    case DeadLetterEvent(update) => DeadLetterRow(update)
    case CreatedEvent(token) => CreatedRow(token)
    case ResultEvent(task) => ResultRow(task)
  }

  /** Delivery finds the row of an event by putting `outbox-` in front of the event's name. */
  lemma OutboxPrefixFindsRow(k: EventKey)
    requires !k.DeadLetterEvent? && !k.CreatedEvent?
    ensures RowId(RowOf(k)) == "outbox-" + EventId(k)
  {
    hide InboundId, TaskId;
    match k
    case InputEvent(_) =>
    case RoutedEvent(update) => assert "outbox-" + "routed-" == "outbox-routed-"; Regroup("outbox-", "routed-", InboundId(update));
    case OutputEvent(update) => assert "outbox-" + "output-routed-" == "outbox-output-routed-"; Regroup("outbox-", "output-routed-", InboundId(update));
    case ResultEvent(task) => assert "outbox-" + "task-result-" == "outbox-task-result-"; Regroup("outbox-", "task-result-", TaskId(task));
  }

  lemma Regroup(a: string, b: string, c: string)
    ensures a + b + c == a + (b + c)
  {
  }

  /** The names of an event's four rows, of its task, and of a job's two rows, as other parts of the program read them. */
  lemma Spelled(update: int, token: string)
    ensures var n := if update < 0 then "-" + Decimal(-update) else Decimal(update);
      && RowId(InputRow(update)) == "outbox-telegram-update-" + n
      && RowId(RoutedRow(update)) == "outbox-routed-telegram-update-" + n
      && RowId(OutputRow(update)) == "outbox-output-routed-telegram-update-" + n
      && RowId(DeadLetterRow(update)) == "dlq-telegram-update-" + n
      && TaskId(RoutedTask(update)) == "task-routed-telegram-update-" + n
    ensures TaskId(JobTask(token)) == "task-job-agentmsg-" + token && RowId(CreatedRow(token)) == "outbox-task-job-agentmsg-" + token
    ensures RowId(ResultRow(JobTask(token))) == "outbox-task-result-task-job-agentmsg-" + token
  {
    hide Decimal;
    var n := if update < 0 then "-" + Decimal(-update) else Decimal(update);
    Regroup("outbox-", "telegram-update-", n);
    Regroup("outbox-routed-", "telegram-update-", n);
    Regroup("outbox-output-routed-", "telegram-update-", n);
    Regroup("dlq-", "telegram-update-", n);
    Regroup("task-routed-", "telegram-update-", n);
    Regroup("outbox-task-result-", "task-job-agentmsg-", token);
    Prefixes();
  }

  lemma Prefixes()
    ensures "outbox-" + "telegram-update-" == "outbox-telegram-update-"
    ensures "outbox-routed-" + "telegram-update-" == "outbox-routed-telegram-update-"
    ensures "outbox-output-routed-" + "telegram-update-" == "outbox-output-routed-telegram-update-"
    ensures "dlq-" + "telegram-update-" == "dlq-telegram-update-"
    ensures "task-routed-" + "telegram-update-" == "task-routed-telegram-update-"
    ensures "outbox-task-result-" + "task-job-agentmsg-" == "outbox-task-result-task-job-agentmsg-"
  {
  }

  /** Equal strings behind one prefix are equal. */
  lemma SamePrefix(prefix: string, a: string, b: string)
    requires prefix + a == prefix + b
    ensures a == b
  {
    assert (prefix + a)[|prefix|..] == a && (prefix + b)[|prefix|..] == b;
  }

  /** A numeral starts with a digit, so a sign in front of it can be told. */
  lemma SignShows(a: int)
    ensures Integer(a) != "" && (a < 0 <==> Integer(a)[0] == '-')
    ensures NumericIdToken(a) != "" && (a < 0 <==> NumericIdToken(a)[0] == 'n')
  {
    hide Decimal;
    var digits := Decimal(if a < 0 then -a else a);
    assert IsDigit(digits[0]) && !IsDigit('-') && !IsDigit('n');
  }

  lemma NumericIdTokenInjective(a: int, b: int)
    requires NumericIdToken(a) == NumericIdToken(b)
    ensures a == b
  {
    SignShows(a);
    SignShows(b);
    hide Decimal;
    if a < 0 && b < 0 {
      SamePrefix("n", Decimal(-a), Decimal(-b));
      DecimalInjective(-a, -b);
    } else if a >= 0 && b >= 0 {
      DecimalInjective(a, b);
    }
  }

  lemma IntegerInjective(a: int, b: int)
    requires Integer(a) == Integer(b)
    ensures a == b
  {
    SignShows(a);
    SignShows(b);
    hide Decimal;
    if a < 0 && b < 0 {
      SamePrefix("-", Decimal(-a), Decimal(-b));
      DecimalInjective(-a, -b);
    } else if a >= 0 && b >= 0 {
      DecimalInjective(a, b);
    }
  }

  lemma InboundIdInjective(a: int, b: int)
    requires InboundId(a) == InboundId(b)
    ensures a == b
  {
    hide Integer;
    SamePrefix("telegram-update-", Integer(a), Integer(b));
    IntegerInjective(a, b);
  }

  lemma TaskKindShows(t: TaskKey)
    ensures |TaskId(t)| > 5 && TaskId(t)[5] == (if t.RoutedTask? then 'r' else 'j')
  {
    hide InboundId;
  }

  lemma TaskIdInjective(a: TaskKey, b: TaskKey)
    requires TaskId(a) == TaskId(b)
    ensures a == b
  {
    TaskKindShows(a);
    TaskKindShows(b);
    hide InboundId;
    if a.RoutedTask? && b.RoutedTask? {
      SamePrefix("task-routed-", InboundId(a.update), InboundId(b.update));
      InboundIdInjective(a.update, b.update);
    } else if a.JobTask? && b.JobTask? {
      SamePrefix("task-job-agentmsg-", a.token, b.token);
    }
  }

  /** The kind of a row, read off its name. */
  function KindOf(id: string): int {
    if |id| < 13 then -1
    else if id[0] == 'd' then 3
    else if id[7] == 'r' then 1
    else if id[7] == 'o' then 2
    else if id[8] == 'e' then 0
    else if id[12] == 'j' then 4
    else 5
  }

  function Kind(k: RowKey): int {
    match k
    case InputRow(_) => 0
    case RoutedRow(_) => 1
    case OutputRow(_) => 2
    case DeadLetterRow(_) => 3
    case CreatedRow(_) => 4
    case ResultRow(_) => 5
  }

  lemma KindIsRead(k: RowKey)
    ensures KindOf(RowId(k)) == Kind(k)
  {
    hide Integer;
    match k
    case InputRow(update) => Starts("outbox-", InboundId(update), 7);
    case RoutedRow(update) => Starts("outbox-routed-", InboundId(update), 0);
    case OutputRow(update) => Starts("outbox-output-routed-", InboundId(update), 0);
    case DeadLetterRow(update) => Starts("dlq-", InboundId(update), 7);
    case CreatedRow(token) => Starts("outbox-task-job-agentmsg-", token, 0);
    case ResultRow(task) => Starts("outbox-task-result-", TaskId(task), 0);
  }

  /** The first characters of a text are those of its prefix, then those of the rest. */
  lemma Starts(prefix: string, rest: string, more: nat)
    ensures forall i | 0 <= i < |prefix| :: (prefix + rest)[i] == prefix[i]
    ensures forall i | 0 <= i < more && i < |rest| :: (prefix + rest)[|prefix| + i] == rest[i]
  {
  }

  lemma RowIdInjective(a: RowKey, b: RowKey)
    requires RowId(a) == RowId(b)
    ensures a == b
  {
    hide InboundId, TaskId, KindOf;
    KindIsRead(a);
    KindIsRead(b);
    match a
    case InputRow(update) =>
      SamePrefix("outbox-", InboundId(update), InboundId(b.update));
      InboundIdInjective(update, b.update);
    case RoutedRow(update) =>
      SamePrefix("outbox-routed-", InboundId(update), InboundId(b.update));
      InboundIdInjective(update, b.update);
    case OutputRow(update) =>
      SamePrefix("outbox-output-routed-", InboundId(update), InboundId(b.update));
      InboundIdInjective(update, b.update);
    case DeadLetterRow(update) =>
      SamePrefix("dlq-", InboundId(update), InboundId(b.update));
      InboundIdInjective(update, b.update);
    case CreatedRow(token) =>
      SamePrefix("outbox-task-job-agentmsg-", token, b.token);
    case ResultRow(task) =>
      SamePrefix("outbox-task-result-", TaskId(task), TaskId(b.task));
      TaskIdInjective(task, b.task);
  }
}
