/** Every interleaving of the recorder's callbacks: each topic is served by one thread, one
    message at a time, while the rows of other topics come in between. */
module RecorderRuns {
  import opened Wrappers
  import opened EventLog
  import opened ReadModel
  import opened Folds
  import opened Messages
  import opened Projection
  import opened Refinement
  import opened Topics
  import opened Recorder

  /** A message whose rows are being inserted: the first `done` of its items are filed, at
      or after row `start`. */
  datatype Open = Open(message: Message, context: TopicContext, done: nat, start: nat)

  /** A message whose recording was cut short, by an insert that failed or the end of the
      process, when the log had `end` rows. */
  datatype Cut = Cut(open: Open, end: nat)

  /** `cuts` is a history variable. */
  datatype Recording = Recording(log: seq<Event>, open: map<string, Open>, cuts: seq<Cut>)

  datatype Step =
    | Begin(message: Message, context: TopicContext)
    | FileNext(topic: string, id: nat, receivedAt: string)
    | End(topic: string)
    | Abort(topic: string)

  ghost predicate Enabled(a: string, s: Recording, step: Step) {
    match step
    case Begin(m, _) => TopicOfMessage(m, a) !in s.open
    case FileNext(topic, id, _) =>
      topic in s.open && s.open[topic].done < |ItemsOf(s.open[topic].message, s.open[topic].context)| &&
      forall e :: e in s.log ==> e.id < id
    case End(topic) =>
      topic in s.open && s.open[topic].done == |ItemsOf(s.open[topic].message, s.open[topic].context)|
    case Abort(topic) => topic in s.open
  }

  function Next(c: Codec, a: string, s: Recording, step: Step): Recording {
    match step
    case Begin(m, context) => s.(open := s.open[TopicOfMessage(m, a) := Open(m, context, 0, |s.log|)])
    case FileNext(topic, id, receivedAt) =>
      if topic in s.open then
        var o := s.open[topic];
        var items := ItemsOf(o.message, o.context);
        if o.done < |items| then
          s.(log := s.log + [Filed(c, a, o.message, o.context, items[o.done], id, receivedAt)],
             open := s.open[topic := o.(done := o.done + 1)])
        else s
      else s
    case End(topic) => s.(open := s.open - {topic})
    case Abort(topic) =>
      if topic in s.open then s.(open := s.open - {topic}, cuts := s.cuts + [Cut(s.open[topic], |s.log|)]) else s
  }

  ghost predicate FiledFrom(c: Codec, a: string, o: Open, e: Event) {
    e == Filed(c, a, o.message, o.context, e.itemId, e.id, e.receivedAt)
  }

  /** From where a message began up to a row, its topic has no rows but its own. */
  ghost predicate RowsFrom(c: Codec, a: string, log: seq<Event>, topic: string, o: Open, end: nat) {
    forall q :: o.start <= q < end && q < |log| && log[q].topic == topic ==> FiledFrom(c, a, o, log[q])
  }

  /** The rows of an open message: nothing else of its topic since it began, and each item
      counted as done is there. */
  ghost predicate OpenRows(c: Codec, a: string, log: seq<Event>, topic: string, o: Open) {
    && TopicOfMessage(o.message, a) == topic
    && o.start <= |log| && o.done <= |ItemsOf(o.message, o.context)|
    && RowsFrom(c, a, log, topic, o, |log|)
    && (forall i :: 0 <= i < o.done ==> FiledWithin(log, topic, ItemsOf(o.message, o.context)[i], o.start, |log|))
  }

  ghost predicate CutRows(c: Codec, a: string, log: seq<Event>, x: Cut) {
    && x.open.start <= x.end <= |log| && x.open.done <= |ItemsOf(x.open.message, x.open.context)|
    && RowsFrom(c, a, log, TopicOfMessage(x.open.message, a), x.open, x.end)
  }

  ghost predicate FiledWithin(log: seq<Event>, topic: string, item: string, start: nat, end: nat) {
    exists q :: start <= q < end && q < |log| && Matches(log[q], topic, item)
  }

  /** Row j is one of a message that was cut short, and the message names k but was never
      filed under it. */
  ghost predicate Lost(a: string, s: Recording, x: Cut, j: nat, k: string) {
    var topic, items := TopicOfMessage(x.open.message, a), ItemsOf(x.open.message, x.open.context);
    && x in s.cuts && x.open.start <= j < x.end && j < |s.log| && s.log[j].topic == topic
    && x.open.done <= |items| && k in items[x.open.done..] && !FiledWithin(s.log, topic, k, x.open.start, x.end)
  }

  /** A key that a row names is filed within the row's message, or will be, or is lost. */
  ghost predicate Accounted(a: string, s: Recording, j: nat, k: string)
    requires j < |s.log|
  {
    || (exists i :: 0 <= i < |s.log| && Matches(s.log[i], s.log[j].topic, k) && OneMessage(s.log, i, j))
    || (s.log[j].topic in s.open &&
        var o := s.open[s.log[j].topic];
        o.start <= j && o.done <= |ItemsOf(o.message, o.context)| && k in ItemsOf(o.message, o.context)[o.done..])
    || (exists x :: Lost(a, s, x, j, k))
  }

  ghost predicate EachFiled(c: Codec, a: string, log: seq<Event>) {
    forall j :: 0 <= j < |log| ==> IsFiled(c, a, log[j])
  }

  ghost predicate IsFiled(c: Codec, a: string, e: Event) {
    exists m, context :: e == Filed(c, a, m, context, e.itemId, e.id, e.receivedAt) && e.itemId in ItemsOf(m, context)
  }

  ghost predicate Inv(c: Codec, a: string, s: Recording) {
    && Ascending(s.log)
    && EachFiled(c, a, s.log)
    && (forall topic :: topic in s.open ==> OpenRows(c, a, s.log, topic, s.open[topic]))
    && (forall x :: x in s.cuts ==> CutRows(c, a, s.log, x))
    && (forall j, g, k :: 0 <= j < |s.log| && EventColumns(c, s.log[j], g, k).Some? ==> Accounted(a, s, j, k))
  }

  lemma InvInit(c: Codec, a: string)
    ensures Inv(c, a, Recording([], map[], []))
  {
  }

  lemma OneMessageGrows(log: seq<Event>, e: Event, i: nat, j: nat)
    requires i < |log| && j < |log| && OneMessage(log, i, j)
    ensures OneMessage(log + [e], i, j)
  {
  }

  lemma InvBegin(c: Codec, a: string, s: Recording, step: Step)
    requires Inv(c, a, s) && Enabled(a, s, step) && step.Begin?
    ensures Inv(c, a, Next(c, a, s, step))
  {
    hide EventWrites, TopicOf, ItemsOf, TopicOfMessage, Filed, EventColumns, OneMessage;
    var r := Next(c, a, s, step);
    forall j, g, k | 0 <= j < |r.log| && EventColumns(c, r.log[j], g, k).Some?
      ensures Accounted(a, r, j, k)
    {
      assert Accounted(a, s, j, k);
      forall x | Lost(a, s, x, j, k)
        ensures Lost(a, r, x, j, k)
      {
      }
    }
  }

  /** Two rows of a message belong together, and so does everything between. */
  lemma RowsAreOneMessage(c: Codec, a: string, log: seq<Event>, topic: string, o: Open, end: nat, i: nat, j: nat)
    requires RowsFrom(c, a, log, topic, o, end) && end <= |log|
    requires o.start <= i < end && o.start <= j < end && log[i].topic == log[j].topic == topic
    ensures OneMessage(log, i, j)
  {
    hide EventWrites, TopicOf, ItemsOf, TopicOfMessage, Filed;
    FiledFields(c, a, o.message, o.context, "", 0, "");
    forall q | 0 <= q < |log| && (i <= q <= j || j <= q <= i) && log[q].topic == log[j].topic
      ensures SameMessage(log[q], log[j])
    {
      assert FiledFrom(c, a, o, log[q]) && FiledFrom(c, a, o, log[j]);
    }
  }

  lemma FiledFields(c: Codec, a: string, m: Message, context: TopicContext, item: string, id: nat, at: string)
    ensures var e := Filed(c, a, m, context, item, id, at);
            e.topic == TopicOfMessage(m, a) && e.itemId == item && e.id == id && e.receivedAt == at
    ensures forall item', id', at' ::
              SameMessage(Filed(c, a, m, context, item', id', at'), Filed(c, a, m, context, item, id, at))
  {
  }

  /** A message that ends, with all its items filed, or is cut short. */
  lemma InvClose(c: Codec, a: string, s: Recording, step: Step)
    requires Inv(c, a, s) && Enabled(a, s, step) && (step.End? || step.Abort?)
    ensures Inv(c, a, Next(c, a, s, step))
  {
    hide EventWrites, TopicOf, ItemsOf, TopicOfMessage, Filed, EventColumns, OneMessage, RowsFrom, FiledWithin;
    var r, topic, o := Next(c, a, s, step), step.topic, s.open[step.topic];
    assert OpenRows(c, a, s.log, topic, o);
    forall j, g, k | 0 <= j < |r.log| && EventColumns(c, r.log[j], g, k).Some?
      ensures Accounted(a, r, j, k)
    {
      AccountedClosed(c, a, s, step, j, k);
    }
  }

  lemma AccountedClosed(c: Codec, a: string, s: Recording, step: Step, j: nat, k: string)
    requires Enabled(a, s, step) && (step.End? || step.Abort?) && j < |s.log| && Accounted(a, s, j, k)
    requires OpenRows(c, a, s.log, step.topic, s.open[step.topic])
    ensures Accounted(a, Next(c, a, s, step), j, k)
  {
    hide EventWrites, TopicOf, ItemsOf, TopicOfMessage, Filed, EventColumns, OneMessage, RowsFrom, FiledWithin;
    var r, topic, o := Next(c, a, s, step), step.topic, s.open[step.topic];
    if i :| 0 <= i < |s.log| && Matches(s.log[i], s.log[j].topic, k) && OneMessage(s.log, i, j) {
      assert Matches(r.log[i], r.log[j].topic, k) && OneMessage(r.log, i, j);
    } else if x :| Lost(a, s, x, j, k) {
      assert Lost(a, r, x, j, k);
    } else if s.log[j].topic == topic {
      if FiledWithin(s.log, topic, k, o.start, |s.log|) {
        FiledTogether(c, a, s.log, topic, o, |s.log|, j, k);
      } else {
        assert step.Abort?;
        assert Lost(a, r, Cut(o, |s.log|), j, k);
      }
    }
  }

  /** A key filed within a message accounts for all rows of the message. */
  lemma FiledTogether(c: Codec, a: string, log: seq<Event>, topic: string, o: Open, end: nat, j: nat, k: string)
    requires RowsFrom(c, a, log, topic, o, end) && end <= |log|
    requires o.start <= j < end && log[j].topic == topic && FiledWithin(log, topic, k, o.start, end)
    ensures exists i :: 0 <= i < |log| && Matches(log[i], topic, k) && OneMessage(log, i, j)
  {
    hide OneMessage, RowsFrom;
    var i :| o.start <= i < end && i < |log| && Matches(log[i], topic, k);
    RowsAreOneMessage(c, a, log, topic, o, end, i, j);
  }

  lemma RowsFromGrow(c: Codec, a: string, log: seq<Event>, e: Event, topic: string, o: Open)
    requires RowsFrom(c, a, log, topic, o, |log|) && (e.topic == topic ==> FiledFrom(c, a, o, e))
    ensures RowsFrom(c, a, log + [e], topic, o, |log| + 1)
    ensures RowsFrom(c, a, log + [e], topic, o.(done := o.done + 1), |log| + 1)
  {
    hide ItemsOf, TopicOfMessage, Filed;
  }

  lemma FiledWithinGrows(log: seq<Event>, e: Event, topic: string, item: string, start: nat)
    requires FiledWithin(log, topic, item, start, |log|) || (start <= |log| && Matches(e, topic, item))
    ensures FiledWithin(log + [e], topic, item, start, |log| + 1)
  {
    var n := |log|;
    if FiledWithin(log, topic, item, start, n) {
      var q :| start <= q < n && Matches(log[q], topic, item);
      assert Matches((log + [e])[q], topic, item);
    } else {
      assert Matches((log + [e])[n], topic, item);
    }
  }

  lemma OpenRowsGrow(c: Codec, a: string, s: Recording, step: Step, topic: string)
    requires Inv(c, a, s) && Enabled(a, s, step) && step.FileNext? && topic in s.open
    ensures var r := Next(c, a, s, step); topic in r.open && OpenRows(c, a, r.log, topic, r.open[topic])
  {
    hide EventWrites, TopicOf, ItemsOf, TopicOfMessage, Filed, RowsFrom, FiledWithin, EachFiled, CutRows, Accounted,
      Ascending;
    var r := Next(c, a, s, step);
    var o, p := s.open[topic], r.open[topic];
    var now := s.open[step.topic];
    var e := r.log[|s.log|];
    FiledFields(c, a, now.message, now.context, ItemsOf(now.message, now.context)[now.done], step.id, step.receivedAt);
    assert OpenRows(c, a, s.log, topic, o);
    assert OpenRows(c, a, s.log, step.topic, now);
    RowsFromGrow(c, a, s.log, e, topic, o);
    forall i | 0 <= i < p.done
      ensures FiledWithin(r.log, topic, ItemsOf(p.message, p.context)[i], p.start, |r.log|)
    {
      FiledWithinGrows(s.log, e, topic, ItemsOf(o.message, o.context)[i], o.start);
    }
  }

  lemma CutRowsGrow(c: Codec, a: string, log: seq<Event>, e: Event, x: Cut)
    requires CutRows(c, a, log, x)
    ensures CutRows(c, a, log + [e], x)
  {
    hide EventWrites, TopicOf, ItemsOf, TopicOfMessage, Filed;
  }

  lemma LostGrows(a: string, s: Recording, r: Recording, e: Event, x: Cut, j: nat, k: string)
    requires Lost(a, s, x, j, k) && r.log == s.log + [e] && r.cuts == s.cuts && x.end <= |s.log|
    ensures Lost(a, r, x, j, k)
  {
    hide ItemsOf, TopicOfMessage;
  }

  /** The new row accounts for the item it files, for all rows of its message. */
  lemma AccountedAfter(c: Codec, a: string, s: Recording, step: Step, j: nat, k: string)
    requires Inv(c, a, s) && Enabled(a, s, step) && step.FileNext?
    requires j < |s.log| && Accounted(a, s, j, k)
    ensures Accounted(a, Next(c, a, s, step), j, k)
  {
    hide EventWrites, TopicOf, ItemsOf, TopicOfMessage, Filed, EventColumns, OpenRows, OneMessage, RowsFrom, Lost;
    var r, n := Next(c, a, s, step), |s.log|;
    assert r.log[j] == s.log[j];
    if i :| 0 <= i < n && Matches(s.log[i], s.log[j].topic, k) && OneMessage(s.log, i, j) {
      OneMessageGrows(s.log, r.log[n], i, j);
      assert Matches(r.log[i], r.log[j].topic, k);
    } else if x :| Lost(a, s, x, j, k) {
      LostIsCut(c, a, s, x, j, k);
      LostGrows(a, s, r, r.log[n], x, j, k);
    } else {
      StillOpen(c, a, s, step, j, k);
    }
  }

  lemma LostIsCut(c: Codec, a: string, s: Recording, x: Cut, j: nat, k: string)
    requires Inv(c, a, s) && Lost(a, s, x, j, k)
    ensures x in s.cuts && CutRows(c, a, s.log, x)
  {
    hide EventWrites, TopicOf, ItemsOf, TopicOfMessage, Filed, EventColumns, CutRows, Accounted, OpenRows;
  }

  lemma StillOpen(c: Codec, a: string, s: Recording, step: Step, j: nat, k: string)
    requires Inv(c, a, s) && Enabled(a, s, step) && step.FileNext?
    requires j < |s.log| && s.log[j].topic in s.open
    requires var o := s.open[s.log[j].topic];
             o.start <= j && o.done <= |ItemsOf(o.message, o.context)| && k in ItemsOf(o.message, o.context)[o.done..]
    ensures Accounted(a, Next(c, a, s, step), j, k)
  {
    hide EventWrites, TopicOf, ItemsOf, TopicOfMessage, Filed, EventColumns, OneMessage, EachFiled, FiledFrom, FiledWithin,
      Lost, CutRows;
    var r, n, topic := Next(c, a, s, step), |s.log|, s.log[j].topic;
    var o := s.open[topic];
    var items := ItemsOf(o.message, o.context);
    OpenRowsGrow(c, a, s, step, topic);
    if topic == step.topic {
      assert items[o.done..] == [items[o.done]] + items[o.done + 1..];
      if k == items[o.done] {
        FiledFields(c, a, o.message, o.context, items[o.done], step.id, step.receivedAt);
        assert OpenRows(c, a, s.log, topic, o);
        RowsAreOneMessage(c, a, r.log, topic, r.open[topic], n + 1, n, j);
        assert Matches(r.log[n], topic, k);
      }
    }
  }

  lemma AccountedNew(c: Codec, a: string, s: Recording, step: Step, g: Group, k: string)
    requires RoundTrips(c) && ActionsTopicAllowed(a)
    requires Inv(c, a, s) && Enabled(a, s, step) && step.FileNext?
    requires EventColumns(c, Next(c, a, s, step).log[|s.log|], g, k).Some?
    ensures Accounted(a, Next(c, a, s, step), |s.log|, k)
  {
    hide EventWrites, TopicOf, ItemsOf, TopicOfMessage, Filed, Lost, CutRows, OneMessage, RowsFrom, EachFiled;
    var r, n, topic := Next(c, a, s, step), |s.log|, step.topic;
    OpenRowsGrow(c, a, s, step, topic);
    var o := r.open[topic];
    var items := ItemsOf(o.message, o.context);
    assert OpenRows(c, a, s.log, topic, s.open[topic]);
    FiledFields(c, a, o.message, o.context, items[o.done - 1], step.id, step.receivedAt);
    ForeignColumns(c, r.log[n], g, k);
    FiledNames(c, a, o.message, o.context, r.log[n], g, k);
    var i :| 0 <= i < |items| && items[i] == k;
    if i < o.done {
      assert FiledWithin(r.log, topic, items[i], o.start, n + 1);
      FiledTogether(c, a, r.log, topic, o, n + 1, n, k);
    } else {
      assert items[o.done..][i - o.done] == k;
    }
  }

  lemma InvFile(c: Codec, a: string, s: Recording, step: Step)
    requires RoundTrips(c) && ActionsTopicAllowed(a)
    requires Inv(c, a, s) && Enabled(a, s, step) && step.FileNext?
    ensures Inv(c, a, Next(c, a, s, step))
  {
    hide EventWrites, TopicOf, ItemsOf, TopicOfMessage, Filed, EventColumns, CutRows, OpenRows, Lost, OneMessage, RowsFrom;
    var r, n := Next(c, a, s, step), |s.log|;
    var o := s.open[step.topic];
    FiledFields(c, a, o.message, o.context, ItemsOf(o.message, o.context)[o.done], step.id, step.receivedAt);
    assert r.log[n] == Filed(c, a, o.message, o.context, r.log[n].itemId, r.log[n].id, r.log[n].receivedAt);
    assert IsFiled(c, a, r.log[n]);
    forall topic | topic in r.open
      ensures OpenRows(c, a, r.log, topic, r.open[topic])
    {
      OpenRowsGrow(c, a, s, step, topic);
    }
    forall x | x in r.cuts
      ensures CutRows(c, a, r.log, x)
    {
      CutRowsGrow(c, a, s.log, r.log[n], x);
    }
    forall j, g, k | 0 <= j < |r.log| && EventColumns(c, r.log[j], g, k).Some?
      ensures Accounted(a, r, j, k)
    {
      if j < n {
        assert Accounted(a, s, j, k);
        AccountedAfter(c, a, s, step, j, k);
      } else {
        AccountedNew(c, a, s, step, g, k);
      }
    }
  }

  lemma InvNext(c: Codec, a: string, s: Recording, step: Step)
    requires RoundTrips(c) && ActionsTopicAllowed(a)
    requires Inv(c, a, s) && Enabled(a, s, step)
    ensures Inv(c, a, Next(c, a, s, step))
  {
    match step
    case Begin(_, _) => InvBegin(c, a, s, step);
    case FileNext(_, _, _) => InvFile(c, a, s, step);
    case _ => InvClose(c, a, s, step);
  }

  // ---------------------------------------------------------------- whole runs

  ghost predicate IsRun(c: Codec, a: string, run: seq<Recording>, steps: seq<Step>) {
    && |run| == |steps| + 1 && run[0] == Recording([], map[], [])
    && forall i :: 0 <= i < |steps| ==> Enabled(a, run[i], steps[i]) && run[i + 1] == Next(c, a, run[i], steps[i])
  }

  lemma {:induction false} RunInv(c: Codec, a: string, run: seq<Recording>, steps: seq<Step>, n: nat)
    requires RoundTrips(c) && ActionsTopicAllowed(a) && IsRun(c, a, run, steps) && n < |run|
    ensures Inv(c, a, run[n])
  {
    if n == 0 {
      InvInit(c, a);
    } else {
      RunInv(c, a, run, steps, n - 1);
      InvNext(c, a, run[n - 1], steps[n - 1]);
    }
  }

  lemma InvGivesSingleItem(c: Codec, a: string, s: Recording, g: Group)
    requires RoundTrips(c) && ActionsTopicAllowed(a) && Inv(c, a, s) && Snapshot(g)
    ensures SingleItem(c, s.log, g)
  {
    hide EventWrites, TopicOf, ItemsOf, TopicOfMessage, Filed, EventColumns, RoundTrips, Accounted, OpenRows;
    forall j, k | 0 <= j < |s.log| && EventColumns(c, s.log[j], g, k).Some?
      ensures k == s.log[j].itemId
    {
      var e := s.log[j];
      assert IsFiled(c, a, e);
      var m, context :| e == Filed(c, a, m, context, e.itemId, e.id, e.receivedAt) && e.itemId in ItemsOf(m, context);
      FiledSingle(c, a, m, context, e, g, k);
    }
  }

  lemma FiledSingle(c: Codec, a: string, m: Message, context: TopicContext, e: Event, g: Group, k: string)
    requires RoundTrips(c) && ActionsTopicAllowed(a) && Snapshot(g)
    requires e == Filed(c, a, m, context, e.itemId, e.id, e.receivedAt) && e.itemId in ItemsOf(m, context)
    requires EventColumns(c, e, g, k).Some?
    ensures k == e.itemId
  {
    hide EventWrites, TopicOf, TopicOfMessage, Filed, EventColumns, RoundTrips;
    ForeignColumns(c, e, g, k);
    FiledNames(c, a, m, context, e, g, k);
    FiledFields(c, a, m, context, e.itemId, e.id, e.receivedAt);
    TopicGroup(m, a, g);
  }

  lemma InvGivesDecodes(c: Codec, a: string, s: Recording)
    requires RoundTrips(c) && ActionsTopicAllowed(a) && Inv(c, a, s)
    ensures SelfNaming(c, s.log) && LatestDecode(c, s.log)
  {
    hide EventWrites, TopicOf;
    forall j, g | 0 <= j < |s.log| && s.log[j].topic == TopicOf(g)
      ensures Decodes(c, g, s.log[j]) && EventColumns(c, s.log[j], g, s.log[j].itemId).Some?
    {
      var e := s.log[j];
      assert IsFiled(c, a, e);
      var m, context :| e == Filed(c, a, m, context, e.itemId, e.id, e.receivedAt) && e.itemId in ItemsOf(m, context);
      FiledNames(c, a, m, context, e, g, e.itemId);
    }
  }

  lemma InvGivesComplete(c: Codec, a: string, s: Recording)
    requires Inv(c, a, s) && s.open == map[] && s.cuts == []
    ensures Complete(c, s.log)
  {
    hide EventWrites, TopicOf, EventColumns, OneMessage, ItemsOf, TopicOfMessage;
    forall j, g, k | 0 <= j < |s.log| && EventColumns(c, s.log[j], g, k).Some?
      ensures exists i :: 0 <= i < |s.log| && Matches(s.log[i], TopicOf(g), k) && OneMessage(s.log, i, j)
    {
      assert Accounted(a, s, j, k);
      ForeignColumns(c, s.log[j], g, k);
    }
  }

  lemma UpheldByFiled(c: Codec, log: seq<Event>, g: Group, k: string, j: nat, i: nat)
    requires SelfNaming(c, log) && LatestDecode(c, log) && j < |log| && NamesLast(c, log, g, k, j)
    requires i < |log| && Matches(log[i], TopicOf(g), k) && log[j].topic == TopicOf(g) && OneMessage(log, i, j)
    ensures Upheld(c, log, g, k, j)
  {
    hide EventWrites, TopicOf, EventColumns, Decodes, Upheld;
    var last := LastIndex(log, TopicOf(g), k).value;
    assert IsLatest(log, last) && i <= last;
    assert EventColumns(c, log[last], g, log[last].itemId).Some?;
    NothingAfterIn(c, log, g, k, last, j);
  }

  lemma UpheldByOpen(c: Codec, a: string, log: seq<Event>, g: Group, k: string, j: nat, o: Open)
    requires j < |log| && log[j].topic == TopicOf(g) && NamesLast(c, log, g, k, j)
    requires OpenRows(c, a, log, TopicOf(g), o) && o.start <= j
    ensures Upheld(c, log, g, k, j)
  {
    hide EventWrites, TopicOf, EventColumns, Upheld, RowsFrom, OneMessage, ItemsOf, TopicOfMessage;
    assert Matches(log[j], TopicOf(g), log[j].itemId);
    var last := LastIndex(log, TopicOf(g), log[j].itemId).value;
    assert IsLatest(log, last) && j <= last;
    RowsAreOneMessage(c, a, log, TopicOf(g), o, |log|, last, j);
    EndsAlike(log, last, j);
    SameMessageColumns(c, log[last], log[j], g, k);
    NothingAfterIn(c, log, g, k, last, j);
  }

  lemma EndsAlike(log: seq<Event>, i: nat, j: nat)
    requires i < |log| && j < |log| && log[i].topic == log[j].topic && OneMessage(log, i, j)
    ensures SameMessage(log[i], log[j])
  {
  }

  /** The last row that names a key is upheld unless the key is lost, even while its message
      is half recorded: then the rows of that message are the newest of their topic. */
  lemma InvUpholds(c: Codec, a: string, s: Recording, g: Group, k: string, j: nat)
    requires RoundTrips(c) && ActionsTopicAllowed(a) && Inv(c, a, s)
    requires j < |s.log| && NamesLast(c, s.log, g, k, j)
    ensures Upheld(c, s.log, g, k, j) || exists x :: Lost(a, s, x, j, k)
  {
    hide EventWrites, TopicOf, ItemsOf, TopicOfMessage, Filed, EventColumns, EachFiled, OpenRows, OneMessage, Upheld,
      RoundTrips, Lost, CutRows;
    ForeignColumns(c, s.log[j], g, k);
    InvGivesDecodes(c, a, s);
    assert Accounted(a, s, j, k);
    if i :| 0 <= i < |s.log| && Matches(s.log[i], s.log[j].topic, k) && OneMessage(s.log, i, j) {
      UpheldByFiled(c, s.log, g, k, j, i);
    } else if x :| Lost(a, s, x, j, k) {
    } else {
      UpheldByOpen(c, a, s.log, g, k, j, s.open[s.log[j].topic]);
    }
  }

  lemma NothingAfterIn(c: Codec, log: seq<Event>, g: Group, k: string, last: nat, j: nat)
    requires last <= j < |log| && log[j].topic == log[last].topic == TopicOf(g) && OneMessage(log, last, j)
    requires NamesLast(c, log, g, k, j) && IsLatest(log, last)
    ensures Upheld(c, log, g, k, j)
  {
    hide EventWrites, TopicOf, EventColumns, IsLatest;
    SameMessageColumns(c, log[last], log[j], g, k);
    forall q | last < q < |log| && log[q].topic == TopicOf(g) && EventColumns(c, log[q], g, k).Some?
      ensures EventColumns(c, log[q], g, k) == EventColumns(c, log[last], g, k)
    {
      SameMessageColumns(c, log[q], log[j], g, k);
    }
    assert NothingElseAfter(c, log, g, k, last);
  }

  // ---------------------------------------------------------------- what a cut message costs

  /** Some row of the cut message is still the latest of its item. */
  ghost predicate StillLatest(a: string, log: seq<Event>, x: Cut) {
    exists i :: x.open.start <= i < x.end && i < |log| && log[i].topic == TopicOfMessage(x.open.message, a) &&
                IsLatest(log, i)
  }

  /** A lost key does no harm: a row of its message is still the latest of its item, or the
      latest rows from before the message say the same of the key. */
  ghost predicate Covered(c: Codec, a: string, log: seq<Event>, g: Group, x: Cut, j: nat, k: string)
    requires j < |log|
  {
    StillLatest(a, log, x) ||
    (x.open.start <= |log| && LatestSays(c, log, g, k, x.open.start) == EventColumns(c, log[j], g, k))
  }

  /** Every lost key that has not been named again since is covered. */
  ghost predicate LossCovered(c: Codec, a: string, s: Recording, g: Group) {
    forall x, j: nat, k :: j < |s.log| && Lost(a, s, x, j, k) && NamesLast(c, s.log, g, k, j) ==>
      Covered(c, a, s.log, g, x, j, k)
  }

  /** Down to where the cut message begins, the latest rows say nothing unless one of them is
      a row of the message. */
  lemma {:induction false} SaidThroughCut(c: Codec, a: string, log: seq<Event>, g: Group, k: string, x: Cut, j: nat, n: nat)
    requires CutRows(c, a, log, x) && x.open.start <= j < x.end && x.open.start <= n <= |log|
    requires log[j].topic == TopicOfMessage(x.open.message, a) == TopicOf(g) && NamesLast(c, log, g, k, j)
    ensures LatestSays(c, log, g, k, n) ==
            if exists i :: x.open.start <= i < n && i < x.end && log[i].topic == TopicOf(g) && IsLatest(log, i) then
              EventColumns(c, log[j], g, k)
            else LatestSays(c, log, g, k, x.open.start)
  {
    hide EventWrites, TopicOf, EventColumns, IsLatest, ItemsOf, TopicOfMessage, RowsFrom, OneMessage;
    if n > x.open.start {
      SaidThroughCut(c, a, log, g, k, x, j, n - 1);
      if log[n - 1].topic == TopicOf(g) && n - 1 < x.end {
        RowsAreOneMessage(c, a, log, TopicOf(g), x.open, x.end, n - 1, j);
        EndsAlike(log, n - 1, j);
        SameMessageColumns(c, log[n - 1], log[j], g, k);
      }
    }
  }

  /** A lost key is upheld exactly when the loss is covered. */
  lemma LostUpheldIff(c: Codec, a: string, s: Recording, g: Group, x: Cut, j: nat, k: string)
    requires Inv(c, a, s) && Lost(a, s, x, j, k) && NamesLast(c, s.log, g, k, j)
    ensures Upheld(c, s.log, g, k, j) <==> Covered(c, a, s.log, g, x, j, k)
  {
    hide EventWrites, TopicOf, EventColumns, IsLatest, ItemsOf, TopicOfMessage, RowsFrom, OneMessage, Upheld, LatestSays,
      FiledWithin;
    LostIsCut(c, a, s, x, j, k);
    ForeignColumns(c, s.log[j], g, k);
    UpheldIffSaid(c, s.log, g, k, j);
    SaidThroughCut(c, a, s.log, g, k, x, j, |s.log|);
  }

  /** The exact condition at the recorder. At every moment of every recording, whatever was
      cut short, a topic is settled if and only if its losses are covered. */
  lemma SettledIffLossCovered(c: Codec, a: string, run: seq<Recording>, steps: seq<Step>, n: nat, g: Group)
    requires RoundTrips(c) && ActionsTopicAllowed(a) && IsRun(c, a, run, steps) && n < |run|
    ensures Settled(c, run[n].log, g) <==> LossCovered(c, a, run[n], g)
  {
    hide IsRun, Inv, NamesLast, Upheld, Lost, EventColumns, Covered, RoundTrips;
    RunInv(c, a, run, steps, n);
    var s := run[n];
    if LossCovered(c, a, s, g) {
      forall j, k | 0 <= j < |s.log| && NamesLast(c, s.log, g, k, j)
        ensures Upheld(c, s.log, g, k, j)
      {
        InvUpholds(c, a, s, g, k, j);
        if x :| Lost(a, s, x, j, k) {
          LostUpheldIff(c, a, s, g, x, j, k);
        }
      }
    }
    if Settled(c, s.log, g) {
      forall x, j: nat, k | j < |s.log| && Lost(a, s, x, j, k) && NamesLast(c, s.log, g, k, j)
        ensures Covered(c, a, s.log, g, x, j, k)
      {
        LostUpheldIff(c, a, s, g, x, j, k);
      }
    }
  }

  /** What an uncovered loss does, always: in id order, the cycle shows of the lost key what was
      said before the message that was cut short, and not what the log says last. */
  lemma UncoveredLossShows(c: Codec, a: string, run: seq<Recording>, steps: seq<Step>, n: nat, g: Group, x: Cut, j: nat,
                           k: string, batch: seq<Event>)
    requires RoundTrips(c) && ActionsTopicAllowed(a) && IsRun(c, a, run, steps) && n < |run| && j < |run[n].log|
    requires Lost(a, run[n], x, j, k) && NamesLast(c, run[n].log, g, k, j) && !Covered(c, a, run[n].log, g, x, j, k)
    requires IsBatch(run[n].log, TopicOf(g), batch) && Ascending(batch)
    ensures x.open.start <= |run[n].log|
    ensures LastColumns(Writes(c, batch), g, k) == LatestSays(c, run[n].log, g, k, x.open.start)
    ensures LastColumns(Writes(c, batch), g, k) != Newest(c, run[n].log, g, k)
  {
    hide EventWrites, TopicOf, EventColumns, IsLatest, ItemsOf, TopicOfMessage, RowsFrom, OneMessage, LatestSays,
      FiledWithin, IsRun, RoundTrips, IsBatch;
    var s := run[n];
    RunInv(c, a, run, steps, n);
    LostIsCut(c, a, s, x, j, k);
    ForeignColumns(c, s.log[j], g, k);
    SaidThroughCut(c, a, s.log, g, k, x, j, |s.log|);
    InOrderShowsLatest(c, s.log, g, batch, k);
    LastWord(c, s.log, g, k, j);
  }

  /** After row j, its topic has a row of a message with k among its items. */
  ghost predicate RecordedAgain(c: Codec, a: string, log: seq<Event>, j: nat, k: string)
    requires j < |log|
  {
    exists q, m, context ::
      j < q < |log| && log[q].topic == log[j].topic && k in ItemsOf(m, context) &&
      log[q] == Filed(c, a, m, context, log[q].itemId, log[q].id, log[q].receivedAt)
  }

  /** Recovery: once every lost key has been recorded again, nothing of the losses remains. */
  lemma RecordedAgainSettles(c: Codec, a: string, run: seq<Recording>, steps: seq<Step>, n: nat, g: Group)
    requires RoundTrips(c) && ActionsTopicAllowed(a) && IsRun(c, a, run, steps) && n < |run|
    requires forall x, j: nat, k :: Lost(a, run[n], x, j, k) && run[n].log[j].topic == TopicOf(g) ==>
               RecordedAgain(c, a, run[n].log, j, k)
    ensures Settled(c, run[n].log, g)
  {
    hide IsRun, RoundTrips, TopicOf, EventColumns, EventWrites, Lost, Covered, Settled, Filed, ItemsOf;
    var log := run[n].log;
    forall x, j: nat, k | j < |log| && Lost(a, run[n], x, j, k)
      ensures !NamesLast(c, log, g, k, j)
    {
      if NamesLast(c, log, g, k, j) {
        ForeignColumns(c, log[j], g, k);
        assert RecordedAgain(c, a, log, j, k);
        var q, m, context :|
          j < q < |log| && log[q].topic == log[j].topic && k in ItemsOf(m, context) &&
          log[q] == Filed(c, a, m, context, log[q].itemId, log[q].id, log[q].receivedAt);
        FiledNames(c, a, m, context, log[q], g, k);
        assert false;
      }
    }
    SettledIffLossCovered(c, a, run, steps, n, g);
  }

  /** What holds of every recording, at every moment of every interleaving: the log ascends,
      its rows parse and name the item they are filed under, and the topics whose messages
      carry one item are single-item and settled. With the topic names in the code, so is
      the actions topic, which no projector asks for. Only a topic with several items can
      lose anything. */
  lemma RecordedLogs(c: Codec, a: string, run: seq<Recording>, steps: seq<Step>, n: nat)
    requires RoundTrips(c) && ActionsTopicAllowed(a) && IsRun(c, a, run, steps) && n < |run|
    ensures Ascending(run[n].log) && SelfNaming(c, run[n].log) && LatestDecode(c, run[n].log)
    ensures forall g :: Snapshot(g) ==> SingleItem(c, run[n].log, g) && Settled(c, run[n].log, g)
    ensures a != INSTANT_ACTIONS_TOPIC ==> Settled(c, run[n].log, Action)
    ensures run[n].open == map[] && run[n].cuts == [] ==> Complete(c, run[n].log)
  {
    hide Settled, SingleItem, Complete, SelfNaming, LatestDecode, IsRun, RoundTrips;
    RunInv(c, a, run, steps, n);
    InvGivesDecodes(c, a, run[n]);
    forall g | Snapshot(g)
      ensures SingleItem(c, run[n].log, g) && Settled(c, run[n].log, g)
    {
      InvGivesSingleItem(c, a, run[n], g);
      SingleItemSettled(c, run[n].log, g);
    }
    if a != INSTANT_ACTIONS_TOPIC {
      NoActionRows(c, a, run, steps, n);
      UnnamedSettled(c, run[n].log, Action);
    }
    if run[n].open == map[] && run[n].cuts == [] {
      InvGivesComplete(c, a, run[n]);
    }
  }

  lemma UnnamedSettled(c: Codec, log: seq<Event>, g: Group)
    requires forall j, k :: 0 <= j < |log| ==> EventColumns(c, log[j], g, k).None?
    ensures Settled(c, log, g)
  {
    hide EventColumns;
  }

  /** Without a cut message every log is coherent, half-recorded messages included. */
  lemma UncutIsCoherent(c: Codec, a: string, run: seq<Recording>, steps: seq<Step>, n: nat)
    requires RoundTrips(c) && ActionsTopicAllowed(a) && IsRun(c, a, run, steps) && n < |run| && run[n].cuts == []
    ensures Coherent(c, run[n].log)
  {
    hide Settled, IsRun, RoundTrips, NamesLast, EventColumns, ItemsOf, TopicOfMessage, SelfNaming, LatestDecode;
    RecordedLogs(c, a, run, steps, n);
    forall g
      ensures Settled(c, run[n].log, g)
    {
      SettledIffLossCovered(c, a, run, steps, n, g);
    }
  }

  ghost predicate FiledAction(c: Codec, a: string, m: Message, context: TopicContext, e: Event) {
    m.OfActions? && e == Filed(c, a, m, context, e.itemId, e.id, e.receivedAt) && e.itemId in ItemsOf(m, context)
  }

  /** Under the recorder's own topic, no row says anything to the actions projector. */
  lemma NoActionRows(c: Codec, a: string, run: seq<Recording>, steps: seq<Step>, n: nat)
    requires RoundTrips(c) && ActionsTopicAllowed(a) && IsRun(c, a, run, steps) && n < |run|
    requires a != INSTANT_ACTIONS_TOPIC
    ensures forall j, k :: 0 <= j < |run[n].log| ==> EventColumns(c, run[n].log[j], Action, k).None?
  {
    hide EventWrites, TopicOf, EventColumns, IsRun, RoundTrips;
    var log := run[n].log;
    RunInv(c, a, run, steps, n);
    forall j, k | 0 <= j < |log|
      ensures EventColumns(c, log[j], Action, k).None?
    {
      var e := log[j];
      assert IsFiled(c, a, e);
      var m, context :| e == Filed(c, a, m, context, e.itemId, e.id, e.receivedAt) && e.itemId in ItemsOf(m, context);
      TopicGroup(m, a, Action);
      ForeignColumns(c, e, Action, k);
    }
  }

  /** With the topic names in the code, no recorded action is ever projected: the projector
      asks for another topic. It is projected exactly when the two names are the same. */
  lemma ActionsProjectedIffTopicsAgree(c: Codec, a: string, run: seq<Recording>, steps: seq<Step>, n: nat)
    requires RoundTrips(c) && ActionsTopicAllowed(a) && IsRun(c, a, run, steps) && n < |run|
    ensures a != "instant_actions" ==> forall k :: Newest(c, run[n].log, Action, k).None?
    ensures a == "instant_actions" ==>
              forall j, m, context :: 0 <= j < |run[n].log| && FiledAction(c, a, m, context, run[n].log[j]) ==>
                Newest(c, run[n].log, Action, run[n].log[j].itemId).Some?
  {
    hide EventWrites, TopicOf, EventColumns;
    var log := run[n].log;
    if a != INSTANT_ACTIONS_TOPIC {
      NoActionRows(c, a, run, steps, n);
      forall k
        ensures Newest(c, log, Action, k).None?
      {
        NoWord(c, log, Action, k);
      }
    } else {
      forall j, m, context | 0 <= j < |log| && FiledAction(c, a, m, context, log[j])
        ensures Newest(c, log, Action, log[j].itemId).Some?
      {
        TopicGroup(m, a, Action);
        FiledNames(c, a, m, context, log[j], Action, log[j].itemId);
        NoWord(c, log, Action, log[j].itemId);
      }
    }
  }
}
