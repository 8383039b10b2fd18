/** Task generation (services/task_generator.py): every TODO or FOLLOWUP
    classification whose message is known becomes an open task with a title, a
    description and a due date derived from the message text; NOISE
    classifications are skipped, and a classification whose message is missing or
    whose task fails validation is counted as an error. */
module TaskGenerator {
  import opened Wrappers
  import opened Basics
  import opened Text
  import opened Sequences
  import opened MessageModel
  import opened ClassificationModel
  import opened TaskModel
  import Classifier

  function Min(a: int, b: int): int { if a <= b then a else b }

  /** `_generate_task_title`: the subject when it is non-empty, else the snippet
      cut to 50 characters with "..." marking the cut, else "Task from <sender>". */
  function Title(m: Message): (t: string)
    ensures t != ""
    ensures HasSubject(m) ==> t == m.subject.value
    ensures !HasSubject(m) && m.snippet != "" ==>
              StartsWith(t, m.snippet[..Min(50, |m.snippet|)]) && |t| <= 53
    ensures !HasSubject(m) && |m.snippet| > 50 ==> |t| == 53 && EndsWith(t, "...")
    ensures !HasSubject(m) && 0 < |m.snippet| <= 50 ==> t == m.snippet
    ensures !HasSubject(m) && m.snippet == "" ==> t == "Task from " + m.sender
  {
    if HasSubject(m) then m.subject.value
    else if m.snippet != "" then
      (if |m.snippet| > 50 then m.snippet[..50] + "..." else m.snippet)
    else "Task from " + m.sender
  }

  /** The lines of the description, in order. */
  function DescriptionParts(m: Message, c: Classification, fmt: Timestamp -> string): seq<string>
  {
    (if HasSubject(m) then ["Subject: " + m.subject.value] else [])
    + ["From: " + m.sender, "Channel: " + ChannelValue(m.channel), "Received: " + fmt(m.receivedAt)]
    + (if m.snippet != "" then ["\nMessage:\n" + m.snippet] else [])
    + [ClassificationLine(c)]
  }

  function ClassificationLine(c: Classification): string
  {
    "\nClassification: " + LabelValue(c.category) + " (Priority: " + IntToDecimal(c.priority) + ")"
  }

  /** `_generate_task_description`: the lines joined by newlines. The text names the
      sender and the channel, the subject and the snippet when present, and ends with
      the label and priority. `fmt` stands for `strftime('%Y-%m-%d %H:%M')`. */
  function Description(m: Message, c: Classification, fmt: Timestamp -> string): (d: string)
    ensures Contains(d, "From: " + m.sender)
    ensures Contains(d, "Channel: " + ChannelValue(m.channel))
    ensures Contains(d, "Received: " + fmt(m.receivedAt))
    ensures HasSubject(m) ==> Contains(d, "Subject: " + m.subject.value)
    ensures m.snippet != "" ==> Contains(d, m.snippet)
    ensures EndsWith(d, ClassificationLine(c))
  {
    var parts := DescriptionParts(m, c, fmt);
    var h := if HasSubject(m) then 1 else 0;
    assert parts[h] == "From: " + m.sender && parts[h + 1] == "Channel: " + ChannelValue(m.channel);
    assert parts[h + 2] == "Received: " + fmt(m.receivedAt);
    JoinContainsParts("\n", parts, h);
    JoinContainsParts("\n", parts, h + 1);
    JoinContainsParts("\n", parts, h + 2);
    if HasSubject(m) then
      assert parts[0] == "Subject: " + m.subject.value;
      JoinContainsParts("\n", parts, 0);
      SnippetInDescription(m, parts, h);
      Join("\n", parts)
    else
      SnippetInDescription(m, parts, h);
      Join("\n", parts)
  }

  lemma SnippetInDescription(m: Message, parts: seq<string>, h: nat)
    requires h + 4 <= |parts|
    requires m.snippet != "" ==> parts[h + 3] == "\nMessage:\n" + m.snippet
    ensures m.snippet != "" ==> Contains(Join("\n", parts), m.snippet)
  {
    if m.snippet != "" {
      JoinContainsParts("\n", parts, h + 3);
      ContainsPart(Join("\n", parts), "\nMessage:\n", m.snippet);
    }
  }

  /** Days from `today` to the coming Friday, today itself when it is a Friday. */
  function DaysUntilFriday(today: Date): (d: int)
    ensures 0 <= d < 7
    ensures Weekday(today + d) == Friday
  {
    var w := Weekday(today);
    var d := (4 - w + 7) % 7;
    FridayOffset(today, w, d);
    d
  }

  lemma FridayOffset(today: Date, w: int, d: int)
    requires w == Weekday(today) && d == (4 - w + 7) % 7
    ensures 0 <= d < 7 && Weekday(today + d) == Friday
  {
    var q := (today + 6) / 7;
    assert today + 6 == 7 * q + w;
    if w <= 4 {
      assert d == 4 - w;
      assert today + d + 6 == 7 * q + 4;
    } else {
      assert d == 11 - w;
      assert today + d + 6 == 7 * (q + 1) + 4;
    }
  }

  /** The text mentions a deadline the due-date rules recognise. */
  predicate MentionsDate(content: string)
  {
    Contains(content, "eod today") || Contains(content, "end of day today")
    || Contains(content, "eod tomorrow") || Contains(content, "tomorrow") || Contains(content, "by tomorrow")
    || Contains(content, "this week") || Contains(content, "next week")
  }

  /** `_determine_due_date`: a first-match cascade over deadline phrases in the
      message text, then over the label and priority. */
  function DueDate(c: Classification, m: Message, today: Date): (r: Option<Date>)
    ensures r.None? <==> !MentionsDate(Classifier.Content(m)) && c.category == Noise
    ensures r.Some? ==> today <= r.value < today + 14
  {
    var content := Classifier.Content(m);
    if Contains(content, "eod today") || Contains(content, "end of day today") then Some(today)
    else if Contains(content, "eod tomorrow") || Contains(content, "tomorrow") || Contains(content, "by tomorrow") then
      Some(today + 1)
    else if Contains(content, "this week") then Some(today + DaysUntilFriday(today))
    else if Contains(content, "next week") then Some(today + DaysUntilFriday(today) + 7)
    else if c.category == Todo && c.priority >= 8 then Some(today + 1)
    else if c.category == Todo then Some(today + 3)
    else if c.category == Followup then Some(today + 5)
    else assert !MentionsDate(content); assert c.category == Noise; None
  }

  /** The tomorrow rule fires exactly when "tomorrow" occurs: its other two phrases contain it. */
  lemma TomorrowRule(content: string)
    ensures (Contains(content, "eod tomorrow") || Contains(content, "tomorrow") || Contains(content, "by tomorrow"))
            <==> Contains(content, "tomorrow")
  {
    if Contains(content, "eod tomorrow") {
      assert "eod tomorrow" == "eod " + "tomorrow";
      ContainsPart(content, "eod ", "tomorrow");
    }
    if Contains(content, "by tomorrow") {
      assert "by tomorrow" == "by " + "tomorrow";
      ContainsPart(content, "by ", "tomorrow");
    }
  }

  /** The text asks for the end of today. */
  predicate MentionsToday(content: string)
  {
    Contains(content, "eod today") || Contains(content, "end of day today")
  }

  /** What each rule of the cascade yields, given that no earlier rule applies. */
  lemma DueDateRules(c: Classification, m: Message, today: Date)
    ensures MentionsToday(Classifier.Content(m)) ==> DueDate(c, m, today) == Some(today)
    ensures (!MentionsToday(Classifier.Content(m)) && Contains(Classifier.Content(m), "tomorrow"))
            ==> DueDate(c, m, today) == Some(today + 1)
    ensures (&& !MentionsToday(Classifier.Content(m)) && !Contains(Classifier.Content(m), "tomorrow")
             && Contains(Classifier.Content(m), "this week"))
            ==> (var r := DueDate(c, m, today); r.Some? && r.value - today < 7 && Weekday(r.value) == Friday)
    ensures (&& !MentionsToday(Classifier.Content(m)) && !Contains(Classifier.Content(m), "tomorrow")
             && !Contains(Classifier.Content(m), "this week") && Contains(Classifier.Content(m), "next week"))
            ==> (var r := DueDate(c, m, today); r.Some? && 7 <= r.value - today < 14 && Weekday(r.value) == Friday)
    ensures (!MentionsDate(Classifier.Content(m)) && c.category == Todo && c.priority >= 8)
            ==> DueDate(c, m, today) == Some(today + 1)
    ensures (!MentionsDate(Classifier.Content(m)) && c.category == Todo && c.priority < 8)
            ==> DueDate(c, m, today) == Some(today + 3)
    ensures (!MentionsDate(Classifier.Content(m)) && c.category == Followup)
            ==> DueDate(c, m, today) == Some(today + 5)
  {
    var content := Classifier.Content(m);
    TomorrowRule(content);
    var d := DaysUntilFriday(today);
    assert Weekday(today + d + 7) == Weekday(today + d);
  }

  /** `_create_task_from_classification`: an open task for the classification's
      message, with the classification's priority. Building it fails exactly when
      that priority is outside 1..10. */
  function CreateTask(c: Classification, m: Message, userId: Uuid, taskId: Uuid,
                      now: Timestamp, today: Date, fmt: Timestamp -> string): (r: Result<Task, string>)
    ensures r.Ok? <==> InPriorityRange(c.priority)
    ensures r.Ok? ==> r.value.taskId == taskId && r.value.userId == userId && r.value.status == Open
    ensures r.Ok? ==> r.value.sourceMessageId == Some(m.msgId) && r.value.priority == c.priority
    ensures r.Ok? ==> r.value.title != "" && r.value.createdAt == now && r.value.description.Some?
    ensures r.Ok? && c.category != Noise ==> r.value.dueDate.Some?
    ensures r.Ok? ==> r.value.title == Title(m) && r.value.dueDate == DueDate(c, m, today)
    ensures r.Ok? ==> r.value.description == Some(Description(m, c, fmt))
  {
    NewTaskRead(taskId, userId, Title(m), c.priority, now,
                Some(m.msgId), Open, DueDate(c, m, today), Some(Description(m, c, fmt)))
  }

  /** `{str(msg.msg_id): msg for msg in messages}`: a later message with the same id replaces an earlier one. */
  function MessageIndex(messages: seq<Message>): (index: map<Uuid, Message>)
    ensures forall i :: 0 <= i < |messages| ==> messages[i].msgId in index
    ensures forall id :: id in index ==> index[id].msgId == id && index[id] in messages
  {
    if messages == [] then map[]
    else
      var last := messages[|messages| - 1];
      var index := MessageIndex(messages[..|messages| - 1])[last.msgId := last];
      assert forall i :: 0 <= i < |messages| - 1 ==> messages[..|messages| - 1][i] == messages[i];
      index
  }

  /** `messages[i]` is the last message of the list with the id `id`. */
  predicate LastWithId(messages: seq<Message>, i: int, id: Uuid)
  {
    0 <= i < |messages| && messages[i].msgId == id && forall j :: i < j < |messages| ==> messages[j].msgId != id
  }

  /** Each id of the index maps to the last message given with that id: the one at
      the returned position. */
  lemma {:induction false} MessageIndexLastWins(messages: seq<Message>, id: Uuid) returns (i: int)
    requires id in MessageIndex(messages)
    ensures LastWithId(messages, i, id) && messages[i] == MessageIndex(messages)[id]
  {
    var n := |messages| - 1;
    var pre := messages[..n];
    assert MessageIndex(messages) == MessageIndex(pre)[messages[n].msgId := messages[n]];
    if id == messages[n].msgId {
      i := n;
    } else {
      i := MessageIndexLastWins(pre, id);
      forall j | i < j < |messages| ensures messages[j].msgId != id {
        if j < n { assert messages[j] == pre[j]; }
      }
      assert messages[i] == pre[i];
    }
  }

  /** Every entry of a message index is stored under its own message id. */
  predicate IndexedById(index: map<Uuid, Message>)
  {
    forall id :: id in index ==> index[id].msgId == id
  }

  /** The fate of one classification in a batch. */
  datatype Fate = Made(task: Task) | Skipped | Failed(reason: string)

  /** One iteration of the batch loop: a missing message is an error whatever the
      label; TODO and FOLLOWUP make a task; NOISE is skipped. */
  function Attempt(c: Classification, index: map<Uuid, Message>, userId: Uuid, taskId: Uuid,
                   now: Timestamp, today: Date, fmt: Timestamp -> string): (a: Fate)
    requires IndexedById(index)
    ensures a.Failed? <==> c.msgId !in index || (c.category != Noise && !InPriorityRange(c.priority))
    ensures a.Skipped? <==> c.msgId in index && c.category == Noise
    ensures a.Made? ==> && a.task.userId == userId && a.task.status == Open && a.task.taskId == taskId
                        && a.task.sourceMessageId == Some(c.msgId) && a.task.priority == c.priority
                        && a.task.dueDate.Some? && InPriorityRange(a.task.priority)
    ensures a.Made? ==> && a.task.title == Title(index[c.msgId])
                        && a.task.dueDate == DueDate(c, index[c.msgId], today)
                        && a.task.description == Some(Description(index[c.msgId], c, fmt))
  {
    if c.msgId !in index then Failed("Message not found")
    else if c.category == Todo || c.category == Followup then
      match CreateTask(c, index[c.msgId], userId, taskId, now, today, fmt)
      case Ok(t) => Made(t)
      case Err(e) => Failed(e)
    else assert c.category == Noise; Skipped
  }

  /** The tasks a batch produces, in classification order. `taskIds[i]` is the
      fresh id drawn for `classifications[i]`. */
  function Generated(cs: seq<Classification>, index: map<Uuid, Message>, userId: Uuid, taskIds: seq<Uuid>,
                     now: Timestamp, today: Date, fmt: Timestamp -> string): (ts: seq<Task>)
    requires |taskIds| == |cs| && IndexedById(index)
    ensures |ts| <= |cs|
  {
    if cs == [] then []
    else
      var n := |cs| - 1;
      var earlier := Generated(cs[..n], index, userId, taskIds[..n], now, today, fmt);
      match Attempt(cs[n], index, userId, taskIds[n], now, today, fmt)
      case Made(t) => earlier + [t]
      case _ => earlier
  }

  /** How many classifications of a batch count as errors. */
  function Errors(cs: seq<Classification>, index: map<Uuid, Message>, userId: Uuid, taskIds: seq<Uuid>,
                  now: Timestamp, today: Date, fmt: Timestamp -> string): (k: nat)
    requires |taskIds| == |cs| && IndexedById(index)
    ensures k + |Generated(cs, index, userId, taskIds, now, today, fmt)| <= |cs|
  {
    if cs == [] then 0
    else
      var n := |cs| - 1;
      Errors(cs[..n], index, userId, taskIds[..n], now, today, fmt)
      + (if Attempt(cs[n], index, userId, taskIds[n], now, today, fmt).Failed? then 1 else 0)
  }

  /** The task is an open task of `userId` with a due date and a valid priority,
      made from a TODO or FOLLOWUP classification in `cs` whose message is known:
      its title and due date are the ones that message and classification give. */
  ghost predicate TaskOfBatch(t: Task, cs: seq<Classification>, index: map<Uuid, Message>, userId: Uuid, today: Date)
  {
    && t.userId == userId && t.status == Open && t.dueDate.Some? && InPriorityRange(t.priority)
    && exists i :: 0 <= i < |cs| && FromClassification(t, cs[i], index, today)
  }

  /** The task was made from `c` and its message: its source, priority, title and
      due date follow from them. */
  ghost predicate FromClassification(t: Task, c: Classification, index: map<Uuid, Message>, today: Date)
  {
    && c.category != Noise && c.msgId in index
    && t.sourceMessageId == Some(c.msgId) && t.priority == c.priority
    && t.title == Title(index[c.msgId]) && t.dueDate == DueDate(c, index[c.msgId], today)
  }

  /** Every generated task is a task of the batch in the sense of `TaskOfBatch`. */
  lemma {:induction false} GeneratedTasks(cs: seq<Classification>, index: map<Uuid, Message>, userId: Uuid,
                                          taskIds: seq<Uuid>, now: Timestamp, today: Date, fmt: Timestamp -> string)
    requires |taskIds| == |cs| && IndexedById(index)
    ensures forall t :: t in Generated(cs, index, userId, taskIds, now, today, fmt) ==> TaskOfBatch(t, cs, index, userId, today)
  {
    if cs != [] {
      var n := |cs| - 1;
      GeneratedTasks(cs[..n], index, userId, taskIds[..n], now, today, fmt);
      var earlier := Generated(cs[..n], index, userId, taskIds[..n], now, today, fmt);
      forall t | t in Generated(cs, index, userId, taskIds, now, today, fmt) ensures TaskOfBatch(t, cs, index, userId, today) {
        if t in earlier {
          assert TaskOfBatch(t, cs[..n], index, userId, today);
          var i :| 0 <= i < n && FromClassification(t, cs[..n][i], index, today);
          assert cs[..n][i] == cs[i];
        } else {
          assert FromClassification(t, cs[n], index, today);
        }
      }
    }
  }

  /** One more classification adds its task, if any, and its error, if any. */
  lemma BatchStep(cs: seq<Classification>, index: map<Uuid, Message>, userId: Uuid, taskIds: seq<Uuid>,
                  now: Timestamp, today: Date, fmt: Timestamp -> string, i: nat)
    requires |taskIds| == |cs| && IndexedById(index) && i < |cs|
    ensures var a := Attempt(cs[i], index, userId, taskIds[i], now, today, fmt);
            && Generated(cs[..i + 1], index, userId, taskIds[..i + 1], now, today, fmt)
               == Generated(cs[..i], index, userId, taskIds[..i], now, today, fmt) + (if a.Made? then [a.task] else [])
            && Errors(cs[..i + 1], index, userId, taskIds[..i + 1], now, today, fmt)
               == Errors(cs[..i], index, userId, taskIds[..i], now, today, fmt) + (if a.Failed? then 1 else 0)
  {
    assert cs[..i + 1][..i] == cs[..i] && taskIds[..i + 1][..i] == taskIds[..i];
  }

  /** The message ids of a list of classifications, and the source ids of a list of tasks. */
  function MessageIds(cs: seq<Classification>): (ids: seq<Uuid>)
    ensures |ids| == |cs| && forall i :: 0 <= i < |cs| ==> ids[i] == cs[i].msgId
  {
    seq(|cs|, i requires 0 <= i < |cs| => cs[i].msgId)
  }

  function SourceIds(ts: seq<Task>): (ids: seq<Option<Uuid>>)
    ensures |ids| == |ts| && forall i :: 0 <= i < |ts| ==> ids[i] == ts[i].sourceMessageId
  {
    seq(|ts|, i requires 0 <= i < |ts| => ts[i].sourceMessageId)
  }

  function Wrap(ids: seq<Uuid>): (r: seq<Option<Uuid>>)
    ensures |r| == |ids| && forall i :: 0 <= i < |ids| ==> r[i] == Some(ids[i])
  {
    seq(|ids|, i requires 0 <= i < |ids| => Some(ids[i]))
  }

  /** Tasks appear in the order of their classifications. */
  lemma {:induction false} GeneratedInOrder(cs: seq<Classification>, index: map<Uuid, Message>, userId: Uuid,
                                            taskIds: seq<Uuid>, now: Timestamp, today: Date, fmt: Timestamp -> string)
    requires |taskIds| == |cs| && IndexedById(index)
    ensures IsSubsequence(SourceIds(Generated(cs, index, userId, taskIds, now, today, fmt)), Wrap(MessageIds(cs)))
  {
    if cs == [] {
      assert SourceIds(Generated(cs, index, userId, taskIds, now, today, fmt)) == [];
    } else {
      var n := |cs| - 1;
      GeneratedInOrder(cs[..n], index, userId, taskIds[..n], now, today, fmt);
      var earlier := Generated(cs[..n], index, userId, taskIds[..n], now, today, fmt);
      var all := Wrap(MessageIds(cs));
      assert all == Wrap(MessageIds(cs[..n])) + [Some(cs[n].msgId)];
      SubsequenceSnoc(SourceIds(earlier), Wrap(MessageIds(cs[..n])), Some(cs[n].msgId));
      var a := Attempt(cs[n], index, userId, taskIds[n], now, today, fmt);
      if a.Made? {
        assert Generated(cs, index, userId, taskIds, now, today, fmt) == earlier + [a.task];
        assert a.task.sourceMessageId == Some(cs[n].msgId);
        assert SourceIds(earlier + [a.task]) == SourceIds(earlier) + [Some(cs[n].msgId)];
      } else {
        assert Generated(cs, index, userId, taskIds, now, today, fmt) == earlier;
      }
    }
  }

  /** When every classification's message is known and every priority is valid,
      nothing fails and exactly the TODO and FOLLOWUP classifications become tasks. */
  lemma {:induction false} CleanBatch(cs: seq<Classification>, index: map<Uuid, Message>, userId: Uuid,
                                      taskIds: seq<Uuid>, now: Timestamp, today: Date, fmt: Timestamp -> string)
    requires |taskIds| == |cs| && IndexedById(index)
    requires forall i :: 0 <= i < |cs| ==> cs[i].msgId in index && InPriorityRange(cs[i].priority)
    ensures Errors(cs, index, userId, taskIds, now, today, fmt) == 0
    ensures |Generated(cs, index, userId, taskIds, now, today, fmt)| == |cs| - NoiseCount(cs)
  {
    if cs != [] {
      var n := |cs| - 1;
      assert forall i :: 0 <= i < n ==> cs[..n][i] == cs[i];
      CleanBatch(cs[..n], index, userId, taskIds[..n], now, today, fmt);
    }
  }

  /** How many NOISE classifications a list holds. */
  function NoiseCount(cs: seq<Classification>): (k: nat)
    ensures k <= |cs|
  {
    if cs == [] then 0
    else NoiseCount(cs[..|cs| - 1]) + (if cs[|cs| - 1].category == Noise then 1 else 0)
  }

  /** `generate_tasks_from_classifications`: index the messages by id, then try
      each classification in turn (the `try` block is `Attempt`), collecting tasks
      and counting errors. */
  method GenerateTasks(classifications: seq<Classification>, messages: seq<Message>, request: TaskGenerationRequest,
                       taskIds: seq<Uuid>, now: Timestamp, today: Date, fmt: Timestamp -> string)
    returns (resp: TaskGenerationResponse)
    requires |taskIds| == |classifications|
    ensures resp.totalGenerated == |classifications|
    ensures resp.tasks == Generated(classifications, MessageIndex(messages), request.userId, taskIds, now, today, fmt)
    ensures resp.successCount == |resp.tasks|
    ensures resp.errorCount == Errors(classifications, MessageIndex(messages), request.userId, taskIds, now, today, fmt)
    ensures resp.successCount + resp.errorCount <= |classifications|
    ensures forall t :: t in resp.tasks ==> TaskOfBatch(t, classifications, MessageIndex(messages), request.userId, today)
    ensures IsSubsequence(SourceIds(resp.tasks), Wrap(MessageIds(classifications)))
  {
    var index := MessageIndex(messages);
    assert IndexedById(index);
    var tasks: seq<Task> := [];
    var successCount := 0;
    var errorCount := 0;
    for i := 0 to |classifications|
      invariant tasks == Generated(classifications[..i], index, request.userId, taskIds[..i], now, today, fmt)
      invariant errorCount == Errors(classifications[..i], index, request.userId, taskIds[..i], now, today, fmt)
      invariant successCount == |tasks|
    {
      BatchStep(classifications, index, request.userId, taskIds, now, today, fmt, i);
      var fate := Attempt(classifications[i], index, request.userId, taskIds[i], now, today, fmt);
      if fate.Made? {
        tasks := tasks + [fate.task];
        successCount := successCount + 1;
      } else if fate.Failed? {
        errorCount := errorCount + 1;
      }
    }
    assert classifications[..|classifications|] == classifications && taskIds[..|classifications|] == taskIds;
    GeneratedTasks(classifications, index, request.userId, taskIds, now, today, fmt);
    GeneratedInOrder(classifications, index, request.userId, taskIds, now, today, fmt);
    resp := TaskGenerationResponse(tasks, |classifications|, successCount, errorCount);
  }
}
