/**
 * simulation.py: the Simulation object, its constructor's initialisation
 * events and proceed_cycle, the turn loop in which every agent, in roster
 * order, is asked for actions until it BUYs or SKIPs, with TALK actions
 * relayed to another agent after their loosely formatted target id is resolved.
 *
 * The agents are a scripted response source: the replies the generator gives,
 * in call order, are a finite sequence, and every prompt an agent receives is
 * recorded as a Call.
 */
module Simulations {
  import opened Wrappers
  import opened Text
  import opened Products
  import opened Db
  import opened Agents

  /** additional_data_id as the JSON parser hands it over: an int or a string. */
  datatype Id = IntId(n: int) | StrId(s: string)

  /** The cases proceed_cycle matches the action name against; Other is any other name. */
  datatype Action = Buy | Skip | Talk | Other

  /** How an action name from a response is matched. */
  function Classify(name: string): (a: Action)
    ensures a == Buy <==> name == "BUY"
    ensures a == Skip <==> name == "SKIP"
    ensures a == Talk <==> name == "TALK"
  {
    if name == "BUY" then Buy else if name == "SKIP" then Skip else if name == "TALK" then Talk else Other
  }

  /** One scripted answer of an agent: the three action fields the loop reads, its action name already matched. */
  datatype Reply = Reply(action: Action, dataId: Id, content: string)

  /** str(x) in Python. */
  function PyStr(d: Id): string {
    match d
    case IntId(n) => IntToString(n)
    case StrId(s) => s
  }

  /** `a.id == x` in Python: an int id never equals a string. */
  predicate IdEquals(agentId: int, d: Id) {
    d.IntId? && d.n == agentId
  }

  /** The positions of `[a for a in agents if a.id == x]`, in roster order. */
  function Matches(ids: seq<int>, d: Id): (m: seq<nat>)
    ensures forall k :: 0 <= k < |m| ==> m[k] < |ids| && IdEquals(ids[m[k]], d)
    ensures forall i :: 0 <= i < |ids| && IdEquals(ids[i], d) ==> i in m
    ensures forall k, l :: 0 <= k < l < |m| ==> m[k] < m[l]
  {
    if |ids| == 0 then []
    else
      var prev := Matches(ids[..|ids| - 1], d);
      if IdEquals(ids[|ids| - 1], d) then prev + [|ids| - 1] else prev
  }

  /** What the TALK branch makes of a target id. */
  datatype Target =
    | Resolved(index: nat)   // exactly one agent matches
    | Duplicate(index: nat)  // several agents match; the first is asked, with the not-found text
    | NoMatch                // the match list is empty, yet it is indexed
    | FormatError            // the format-error text is set and no lookup is made
    | Unparsed               // nothing is set and no lookup is made
    | Crash                  // `.split` is called on an int

  /** A lookup summarised by the length and first element of its match list. */
  function Lookup(ids: seq<int>, d: Id): (t: Target)
    ensures t.Resolved? || t.Duplicate? || t.NoMatch?
    ensures t.Resolved? || t.Duplicate? ==> t.index < |ids|
  {
    var m := Matches(ids, d);
    if |m| == 1 then Resolved(m[0])
    else if |m| == 0 then NoMatch
    else Duplicate(m[0])
  }

  /**
   * What a lookup finds: nothing exactly when no id equals the target; otherwise
   * the first agent whose id does, which is the only one when the lookup resolves,
   * and which another agent shares when the lookup finds a duplicate.
   */
  lemma LookupMeaning(ids: seq<int>, d: Id)
    ensures var t := Lookup(ids, d);
      && (t.NoMatch? <==> forall i :: 0 <= i < |ids| ==> !IdEquals(ids[i], d))
      && (t.Resolved? || t.Duplicate? ==>
            IdEquals(ids[t.index], d) && forall j :: 0 <= j < t.index ==> !IdEquals(ids[j], d))
      && (t.Resolved? ==> forall j :: 0 <= j < |ids| && IdEquals(ids[j], d) ==> j == t.index)
      && (t.Duplicate? ==> exists j :: t.index < j < |ids| && IdEquals(ids[j], d))
  {
    var m := Matches(ids, d);
    if |m| == 1 {
      assert forall j :: 0 <= j < |ids| && IdEquals(ids[j], d) ==> j in m;
    } else if |m| > 1 {
      assert IdEquals(ids[m[1]], d) && m[0] < m[1];
    }
  }

  /** Lines 42-59 of proceed_cycle: how a target id is parsed and looked up. */
  function Resolve(ids: seq<int>, d: Id): (t: Target)
    ensures t.Resolved? || t.Duplicate? ==> t.index < |ids|
    ensures t.Crash? <==> d.IntId? && d.n < 0
    ensures t.FormatError? || t.Unparsed? ==> d.StrId?
  {
    if IsDigits(PyStr(d)) then Lookup(ids, d)
    else if d.IntId? then Crash
    else
      var split := Split(d.s, ':');
      if |split| > 2 then FormatError
      else if |split| == 1 && IsDigits(split[0]) then Lookup(ids, IntId(DigitsValue(split[0])))
      else if |split| == 2 && !IsDigits(split[1]) then FormatError
      else if |split| == 2 && IsDigits(split[1]) then Lookup(ids, IntId(DigitsValue(split[1])))
      else Unparsed
  }

  /** A non-negative int target is looked up by equality; a negative one reaches `.split` and fails. */
  lemma ResolveInt(ids: seq<int>, n: int)
    ensures Resolve(ids, IntId(n)) == if n >= 0 then Lookup(ids, IntId(n)) else Crash
  {
    assert PyStr(IntId(n)) == IntToString(n);
  }

  /** A digit-only string is compared, unconverted, with the int ids and so matches nothing. */
  lemma ResolveDigitString(ids: seq<int>, s: string)
    requires IsDigits(s)
    ensures Resolve(ids, StrId(s)) == NoMatch
  {
    assert forall i :: 0 <= i < |ids| ==> !IdEquals(ids[i], StrId(s));
  }

  /** A string without a colon that is not all digits sets no message and makes no lookup. */
  lemma ResolveBareName(ids: seq<int>, s: string)
    requires ':' !in s && !IsDigits(s)
    ensures Resolve(ids, StrId(s)) == Unparsed
  {
    JoinSplit([s], ':');
    assert Join([s], [':']) == s;
  }

  /** `p:q` resolves on q alone: looked up as int(q) when q is all digits, a format error otherwise. */
  lemma ResolveLabelled(ids: seq<int>, p: string, q: string)
    requires ':' !in p && ':' !in q
    ensures Resolve(ids, StrId(p + ":" + q)) == if IsDigits(q) then Lookup(ids, IntId(DigitsValue(q))) else FormatError
  {
    var s := p + ":" + q;
    JoinSplit([p, q], ':');
    assert Join([p, q], [':']) == s;
    assert !IsDigit(s[|p|]);
  }

  /** A string with more than one colon is a format error. */
  lemma ResolveManyColons(ids: seq<int>, s: string)
    requires Count(s, ':') >= 2
    ensures Resolve(ids, StrId(s)) == FormatError
  {
    SplitShape(s, ':');
    if IsDigits(s) {
      CountAbsent(s, ':');
    }
  }

  /** The prompts proceed_cycle sends, before they are rendered as text. */
  datatype Prompt =
    | CycleStart(cycle: int)                   // the first prompt of every turn
    | MessageFrom(sender: int, content: string) // to the target of a TALK, or back to an unparsed sender
    | RepliedBy(target: int, reply: string)     // to the sender once the target replied
    | NoSuchAgent                               // the text sent with a duplicate target
    | BadFormat                                 // the text sent for a malformed target

  /** The text of a prompt. Only the opening prompt of a turn starts with "Cycle ". */
  function Render(p: Prompt): (text: string)
    ensures |text| >= 6 && (text[..6] == "Cycle " <==> p.CycleStart?)
    ensures p.MessageFrom? || p.RepliedBy? || p.NoSuchAgent? ==> text[..6] == "Agent "
  {
    match p
    case CycleStart(n) => "Cycle " + (IntToString(n) + " start")
    case MessageFrom(sender, content) =>
      "Agent " + (IntToString(sender) + " sends you a message:" + content + ", what would you like to reply?")
    case RepliedBy(target, reply) => "Agent " + (IntToString(target) + " replies you:" + reply)
    case NoSuchAgent => "Agent " + "do not exist in environment"
    case BadFormat =>
      // Split at word boundaries: the verifier reasons about short literals far more cheaply.
      var tail := "talk additional data format, " + "please provide only the agenrt id or agent_id:id";
      assert ("Invalid " + tail)[0] == 'I';
      "Invalid " + tail
  }

  /** One prompt sent to an agent, by roster position. */
  datatype Call =
    | Ask(agent: nat, prompt: Prompt)                  // get_action
    | AskReply(agent: nat, prompt: Prompt, peer: nat)  // get_talk_response, given the roster [peer]

  /** Why a turn does not go on. */
  datatype Fault = SplitOnInt | EmptyLookup

  datatype TurnEnd =
    | Ended(final: Reply)      // the action was BUY or SKIP
    | Spinning(last: Reply)    // no case matches: `while True` repeats forever without a call
    | Failed(fault: Fault)     // an exception leaves proceed_cycle
    | Unanswered               // the last prompt gets no scripted reply

  /** How a turn went: its end, how many scripted replies were used, and the prompts sent. */
  datatype Run = Run(end: TurnEnd, used: nat, calls: seq<Call>)

  function Prefixed(calls: seq<Call>, r: Run): Run {
    Run(r.end, r.used, calls + r.calls)
  }

  lemma PrefixedTwice(a: seq<Call>, b: seq<Call>, r: Run)
    ensures Prefixed(a, Prefixed(b, r)) == Prefixed(a + b, r)
  {
    assert a + (b + r.calls) == (a + b) + r.calls;
  }

  /** One pass of the turn loop: the turn stops, or goes on with the sender's next action. */
  datatype Step =
    | Stop(end: TurnEnd, used: nat, calls: seq<Call>)
    | Continue(calls: seq<Call>, next: Reply, pos: nat)

  /**
   * One pass of the turn loop of roster entry s whose current action is a, the
   * next scripted reply being script[pos]. A pass that goes on consumes one reply
   * per prompt it sends.
   */
  function TurnStep(ids: seq<int>, s: nat, a: Reply, script: seq<Reply>, pos: nat): (st: Step)
    requires s < |ids| && pos <= |script|
    ensures st.Stop? ==> pos <= st.used <= |script| && |st.calls| == st.used - pos + (if st.end == Unanswered then 1 else 0)
    ensures st.Continue? ==> pos < st.pos == pos + |st.calls| <= |script|
  {
    if a.action == Buy || a.action == Skip then Stop(Ended(a), pos, [])
    else if a.action == Other then Stop(Spinning(a), pos, [])
    else
      var t := Resolve(ids, a.dataId);
      if t.Crash? then Stop(Failed(SplitOnInt), pos, [])
      else if t.NoMatch? then Stop(Failed(EmptyLookup), pos, [])
      else if t.FormatError? || t.Unparsed? then
        var c := Ask(s, if t.FormatError? then BadFormat else MessageFrom(ids[s], a.content));
        if pos == |script| then Stop(Unanswered, pos, [c])
        else Continue([c], script[pos], pos + 1)
      else
        var c := AskReply(t.index, if t.Resolved? then MessageFrom(ids[s], a.content) else NoSuchAgent, s);
        if pos == |script| then Stop(Unanswered, pos, [c])
        else
          var c' := Ask(s, RepliedBy(ids[t.index], script[pos].content));
          if pos + 1 == |script| then Stop(Unanswered, pos + 1, [c, c'])
          else Continue([c, c'], script[pos + 1], pos + 2)
  }

  /**
   * The rest of the turn of roster entry s once its current action is a and the
   * next scripted reply is script[pos]: passes of the loop until one stops.
   */
  function Turn(ids: seq<int>, s: nat, a: Reply, script: seq<Reply>, pos: nat): (r: Run)
    requires s < |ids| && pos <= |script|
    ensures pos <= r.used <= |script|
    decreases |script| - pos
  {
    match TurnStep(ids, s, a, script, pos)
    case Stop(end, used, calls) => Run(end, used, calls)
    case Continue(calls, next, p) => Prefixed(calls, Turn(ids, s, next, script, p))
  }

  /**
   * How a turn can end: on a BUY or a SKIP, or spinning on an action that is
   * none of BUY, SKIP and TALK.
   */
  lemma {:induction false} TurnEnds(ids: seq<int>, s: nat, a: Reply, script: seq<Reply>, pos: nat)
    requires s < |ids| && pos <= |script|
    ensures var r := Turn(ids, s, a, script, pos);
      && (r.end.Ended? ==> r.end.final.action == Buy || r.end.final.action == Skip)
      && (r.end.Spinning? ==> r.end.last.action == Other)
    decreases |script| - pos
  {
    var st := TurnStep(ids, s, a, script, pos);
    if st.Continue? {
      TurnEnds(ids, s, st.next, script, st.pos);
    }
  }

  /** Every prompt of a turn but an unanswered last one consumes exactly one scripted reply. */
  lemma {:induction false} TurnReplies(ids: seq<int>, s: nat, a: Reply, script: seq<Reply>, pos: nat)
    requires s < |ids| && pos <= |script|
    ensures var r := Turn(ids, s, a, script, pos);
      |r.calls| == r.used - pos + (if r.end == Unanswered then 1 else 0)
    decreases |script| - pos
  {
    var st := TurnStep(ids, s, a, script, pos);
    if st.Continue? {
      TurnReplies(ids, s, st.next, script, st.pos);
    }
  }

  /**
   * Prompts sent during the turn of roster entry s: the sender is the only agent
   * asked for actions, never with a cycle's opening prompt, and the only peer
   * given to a replying agent.
   */
  predicate SenderCalls(ids: seq<int>, s: nat, calls: seq<Call>) {
    forall c :: c in calls ==>
      (c.Ask? ==> c.agent == s && !c.prompt.CycleStart?) && (c.AskReply? ==> c.peer == s && c.agent < |ids|)
  }

  /** Every prompt of a turn is one the sender's turn may send. */
  lemma {:induction false} TurnShape(ids: seq<int>, s: nat, a: Reply, script: seq<Reply>, pos: nat)
    requires s < |ids| && pos <= |script|
    ensures SenderCalls(ids, s, Turn(ids, s, a, script, pos).calls)
    decreases |script| - pos
  {
    var st := TurnStep(ids, s, a, script, pos);
    if st.Continue? {
      TurnShape(ids, s, st.next, script, st.pos);
    }
  }

  /** Where a cycle stops: every turn ended, or the turn of one agent did not. */
  datatype CycleEnd = AllEnded | Stopped(agent: nat, why: TurnEnd)

  /** How a cycle went: its end, the replies used, the prompts sent, and the final action of each finished turn. */
  datatype CycleRun = CycleRun(end: CycleEnd, used: nat, calls: seq<Call>, finals: seq<Reply>)

  function Joined(calls: seq<Call>, finals: seq<Reply>, c: CycleRun): CycleRun {
    CycleRun(c.end, c.used, calls + c.calls, finals + c.finals)
  }

  lemma JoinedTwice(calls: seq<Call>, finals: seq<Reply>, calls': seq<Call>, finals': seq<Reply>, c: CycleRun)
    ensures Joined(calls, finals, Joined(calls', finals', c)) == Joined(calls + calls', finals + finals', c)
  {
    assert calls + (calls' + c.calls) == (calls + calls') + c.calls;
    assert finals + (finals' + c.finals) == (finals + finals') + c.finals;
  }

  /** The turn of one roster entry within a cycle: the cycle stops there, or goes on past a decision. */
  datatype Round =
    | Halt(c: CycleRun)
    | Next(calls: seq<Call>, final: Reply, pos: nat)

  /**
   * The turn of roster entry k in cycle n, from scripted reply pos on: the
   * opening prompt, answered by the agent's first action, and the turn that follows.
   */
  function CycleStep(ids: seq<int>, n: int, k: nat, script: seq<Reply>, pos: nat): (rd: Round)
    requires k < |ids| && pos <= |script|
    ensures rd.Halt? ==> var c := rd.c;
      pos <= c.used <= |script| && c.end.Stopped? && c.end.agent == k && !c.end.why.Ended? && c.finals == []
    ensures rd.Next? ==> pos < rd.pos <= |script|
  {
    var c := Ask(k, CycleStart(n));
    if pos == |script| then Halt(CycleRun(Stopped(k, Unanswered), pos, [c], []))
    else
      var r := Turn(ids, k, script[pos], script, pos + 1);
      if !r.end.Ended? then Halt(CycleRun(Stopped(k, r.end), r.used, [c] + r.calls, []))
      else Next([c] + r.calls, r.end.final, r.used)
  }

  /**
   * The turns of roster entries k.. of cycle n, from scripted reply pos on.
   * A cycle finishes only if every turn ended.
   */
  function CycleFrom(ids: seq<int>, n: int, k: nat, script: seq<Reply>, pos: nat): (c: CycleRun)
    requires k <= |ids| && pos <= |script|
    ensures pos <= c.used <= |script|
    ensures c.end.AllEnded? ==> |c.finals| == |ids| - k
    ensures c.end.Stopped? ==> k <= c.end.agent < |ids| && !c.end.why.Ended? && |c.finals| == c.end.agent - k
    decreases |ids| - k
  {
    if k == |ids| then CycleRun(AllEnded, pos, [], [])
    else
      match CycleStep(ids, n, k, script, pos)
      case Halt(c) => c
      case Next(calls, final, p) => Joined(calls, [final], CycleFrom(ids, n, k + 1, script, p))
  }

  /** A round that halts ends the cycle with it. */
  lemma CycleHalts(ids: seq<int>, n: int, k: nat, script: seq<Reply>, pos: nat)
    requires k < |ids| && pos <= |script| && CycleStep(ids, n, k, script, pos).Halt?
    ensures CycleFrom(ids, n, k, script, pos) == CycleStep(ids, n, k, script, pos).c
  {
  }

  /** A round that goes on is followed by the rest of the cycle. */
  lemma CycleGoesOn(ids: seq<int>, n: int, k: nat, script: seq<Reply>, pos: nat)
    requires k < |ids| && pos <= |script| && CycleStep(ids, n, k, script, pos).Next?
    ensures var rd := CycleStep(ids, n, k, script, pos);
      CycleFrom(ids, n, k, script, pos) == Joined(rd.calls, [rd.final], CycleFrom(ids, n, k + 1, script, rd.pos))
  {
  }

  /**
   * After the rounds of roster entries 0..k-1, which made the calls calls and
   * recorded the final actions finals and left the script at pos, the rest of
   * the cycle completes it.
   */
  ghost predicate Played(ids: seq<int>, n: int, k: nat, script: seq<Reply>, pos: nat, calls: seq<Call>, finals: seq<Reply>) {
    k <= |ids| && pos <= |script|
    && CycleFrom(ids, n, 0, script, 0) == Joined(calls, finals, CycleFrom(ids, n, k, script, pos))
  }

  /** A round that stops the cycle completes the cycle played so far. */
  lemma RoundHalts(ids: seq<int>, n: int, k: nat, script: seq<Reply>, pos: nat, calls: seq<Call>, finals: seq<Reply>)
    requires Played(ids, n, k, script, pos, calls, finals) && k < |ids|
    requires CycleStep(ids, n, k, script, pos).Halt?
    ensures CycleFrom(ids, n, 0, script, 0) == Joined(calls, finals, CycleStep(ids, n, k, script, pos).c)
  {
    CycleHalts(ids, n, k, script, pos);
  }

  /** A round that goes on extends the cycle played so far by its calls and its final action. */
  lemma RoundGoesOn(ids: seq<int>, n: int, k: nat, script: seq<Reply>, pos: nat, calls: seq<Call>, finals: seq<Reply>)
    requires Played(ids, n, k, script, pos, calls, finals) && k < |ids|
    requires CycleStep(ids, n, k, script, pos).Next?
    ensures var rd := CycleStep(ids, n, k, script, pos);
      Played(ids, n, k + 1, script, rd.pos, calls + rd.calls, finals + [rd.final])
  {
    var rd := CycleStep(ids, n, k, script, pos);
    CycleGoesOn(ids, n, k, script, pos);
    JoinedTwice(calls, finals, rd.calls, [rd.final], CycleFrom(ids, n, k + 1, script, rd.pos));
  }

  /** Once every roster entry has played, the cycle played so far is the whole cycle, and it ended. */
  lemma RoundsDone(ids: seq<int>, n: int, script: seq<Reply>, pos: nat, calls: seq<Call>, finals: seq<Reply>)
    requires Played(ids, n, |ids|, script, pos, calls, finals)
    ensures CycleFrom(ids, n, 0, script, 0) == CycleRun(AllEnded, pos, calls, finals)
  {
    assert calls + [] == calls && finals + [] == finals;
  }

  /** The agents that received the opening prompt of cycle n, in the order they received it. */
  function Starts(calls: seq<Call>, n: int): seq<nat> {
    if |calls| == 0 then []
    else (if calls[0].Ask? && calls[0].prompt == CycleStart(n) then [calls[0].agent] else []) + Starts(calls[1..], n)
  }

  lemma {:induction false} StartsAppend(a: seq<Call>, b: seq<Call>, n: int)
    ensures Starts(a + b, n) == Starts(a, n) + Starts(b, n)
  {
    if |a| > 0 {
      assert (a + b)[1..] == a[1..] + b;
      StartsAppend(a[1..], b, n);
    } else {
      assert a + b == b;
    }
  }

  lemma {:induction false} StartsNone(calls: seq<Call>, n: int)
    requires forall c :: c in calls && c.Ask? ==> !c.prompt.CycleStart?
    ensures Starts(calls, n) == []
  {
    if |calls| > 0 {
      assert forall c :: c in calls[1..] ==> c in calls;
      StartsNone(calls[1..], n);
    }
  }

  /** The roster positions lo, lo+1, ..., hi-1. */
  function Range(lo: nat, hi: nat): seq<nat>
    requires lo <= hi
    decreases hi - lo
  {
    if lo == hi then [] else [lo] + Range(lo + 1, hi)
  }

  lemma StartsJoin(x: seq<Call>, y: seq<Call>, n: int, k: nat, hi: nat)
    requires k < hi && Starts(x, n) == [k] && Starts(y, n) == Range(k + 1, hi)
    ensures Starts(x + y, n) == Range(k, hi)
  {
    StartsAppend(x, y, n);
  }

  /** Within a turn only its opening prompt is the opening prompt of a cycle. */
  lemma TurnOpening(ids: seq<int>, n: int, k: nat, script: seq<Reply>, pos: nat)
    requires k < |ids| && pos < |script|
    ensures Starts([Ask(k, CycleStart(n))] + Turn(ids, k, script[pos], script, pos + 1).calls, n) == [k]
  {
    var first := Ask(k, CycleStart(n));
    var r := Turn(ids, k, script[pos], script, pos + 1);
    assert Starts([first], n) == [k] by {
      assert [first][1..] == [];
    }
    TurnShape(ids, k, script[pos], script, pos + 1);
    StartsNone(r.calls, n);
    StartsAppend([first], r.calls, n);
  }

  /** The last roster entry whose turn a cycle starts: the last agent, or the one whose turn stopped it. */
  function LastStarted(ids: seq<int>, c: CycleRun): int {
    if c.end.AllEnded? then |ids| - 1 else c.end.agent
  }

  /** Past a turn that ended, a cycle is that turn's prompts joined to the rest of the cycle. */
  lemma CycleFromEnded(ids: seq<int>, n: int, k: nat, script: seq<Reply>, pos: nat)
    requires k < |ids| && pos < |script|
    requires Turn(ids, k, script[pos], script, pos + 1).end.Ended?
    ensures var r := Turn(ids, k, script[pos], script, pos + 1);
      CycleFrom(ids, n, k, script, pos)
      == Joined([Ask(k, CycleStart(n))] + r.calls, [r.end.final], CycleFrom(ids, n, k + 1, script, r.used))
  {
  }

  /** A turn that did not end stops the cycle. */
  lemma CycleFromStopped(ids: seq<int>, n: int, k: nat, script: seq<Reply>, pos: nat)
    requires k < |ids| && pos < |script|
    requires !Turn(ids, k, script[pos], script, pos + 1).end.Ended?
    ensures var r := Turn(ids, k, script[pos], script, pos + 1);
      CycleFrom(ids, n, k, script, pos) == CycleRun(Stopped(k, r.end), r.used, [Ask(k, CycleStart(n))] + r.calls, [])
  {
  }

  /** Opening prompts of roster entry k followed by those of entries k+1.. are those of entries k.. */
  lemma RosterOrderJoin(ids: seq<int>, n: int, k: nat, head: seq<Call>, final: Reply, rest: CycleRun)
    requires Starts(head, n) == [k]
    requires InRosterOrder(ids, n, k + 1, rest)
    ensures InRosterOrder(ids, n, k, Joined(head, [final], rest))
  {
    StartsJoin(head, rest.calls, n, k, LastStarted(ids, rest) + 1);
  }

  /** The roster-order property of a cycle run c that starts at roster entry k. */
  predicate InRosterOrder(ids: seq<int>, n: int, k: nat, c: CycleRun) {
    LastStarted(ids, c) >= k - 1 && Starts(c.calls, n) == Range(k, LastStarted(ids, c) + 1)
  }

  /** A cycle past the last roster entry starts no turn. */
  lemma RosterOrderDone(ids: seq<int>, n: int, script: seq<Reply>, pos: nat)
    requires pos <= |script|
    ensures InRosterOrder(ids, n, |ids|, CycleFrom(ids, n, |ids|, script, pos))
  {
  }

  /** A cycle that runs out of replies at roster entry k started only that entry's turn. */
  lemma RosterOrderUnanswered(ids: seq<int>, n: int, k: nat, script: seq<Reply>)
    requires k < |ids|
    ensures InRosterOrder(ids, n, k, CycleFrom(ids, n, k, script, |script|))
  {
    var first := Ask(k, CycleStart(n));
    assert Starts([first], n) == [k] by {
      assert [first][1..] == [];
    }
  }

  /** A cycle stopped by the turn of roster entry k started only that entry's turn. */
  lemma RosterOrderStopped(ids: seq<int>, n: int, k: nat, script: seq<Reply>, pos: nat)
    requires k < |ids| && pos < |script|
    requires !Turn(ids, k, script[pos], script, pos + 1).end.Ended?
    ensures InRosterOrder(ids, n, k, CycleFrom(ids, n, k, script, pos))
  {
    var r := Turn(ids, k, script[pos], script, pos + 1);
    TurnOpening(ids, n, k, script, pos);
    CycleFromStopped(ids, n, k, script, pos);
    RosterOrderHalt(ids, n, k, r.end, r.used, [Ask(k, CycleStart(n))] + r.calls);
  }

  lemma RosterOrderHalt(ids: seq<int>, n: int, k: nat, why: TurnEnd, used: nat, calls: seq<Call>)
    requires Starts(calls, n) == [k]
    ensures InRosterOrder(ids, n, k, CycleRun(Stopped(k, why), used, calls, []))
  {
  }

  /** Past a turn of roster entry k that ended, the order of the rest of the cycle carries over. */
  lemma RosterOrderEnded(ids: seq<int>, n: int, k: nat, script: seq<Reply>, pos: nat)
    requires k < |ids| && pos < |script|
    requires var r := Turn(ids, k, script[pos], script, pos + 1);
      r.end.Ended? && InRosterOrder(ids, n, k + 1, CycleFrom(ids, n, k + 1, script, r.used))
    ensures InRosterOrder(ids, n, k, CycleFrom(ids, n, k, script, pos))
  {
    var r := Turn(ids, k, script[pos], script, pos + 1);
    var rest := CycleFrom(ids, n, k + 1, script, r.used);
    TurnOpening(ids, n, k, script, pos);
    CycleFromEnded(ids, n, k, script, pos);
    RosterOrderJoin(ids, n, k, [Ask(k, CycleStart(n))] + r.calls, r.end.final, rest);
  }

  /**
   * Agents take their turns in roster order: the opening prompts of cycle n go
   * to roster entries k, k+1, ... up to the last agent, or up to the agent whose
   * turn stopped the cycle, once each and in that order.
   */
  lemma {:induction false} TurnsInRosterOrder(ids: seq<int>, n: int, k: nat, script: seq<Reply>, pos: nat)
    requires k <= |ids| && pos <= |script|
    ensures InRosterOrder(ids, n, k, CycleFrom(ids, n, k, script, pos))
    decreases |ids| - k
  {
    if k == |ids| {
      RosterOrderDone(ids, n, script, pos);
    } else if pos == |script| {
      RosterOrderUnanswered(ids, n, k, script);
    } else if Turn(ids, k, script[pos], script, pos + 1).end.Ended? {
      TurnsInRosterOrder(ids, n, k + 1, script, Turn(ids, k, script[pos], script, pos + 1).used);
      RosterOrderEnded(ids, n, k, script, pos);
    } else {
      RosterOrderStopped(ids, n, k, script, pos);
    }
  }

  /** Every action of fs is a BUY or a SKIP. */
  predicate Decided(fs: seq<Reply>) {
    |fs| == 0 || ((fs[0].action == Buy || fs[0].action == Skip) && Decided(fs[1..]))
  }

  /** Every final action recorded in c is a BUY or a SKIP. */
  predicate FinalsDecided(c: CycleRun) {
    Decided(c.finals)
  }

  lemma {:induction false} DecidedAppend(a: seq<Reply>, b: seq<Reply>)
    requires Decided(a) && Decided(b)
    ensures Decided(a + b)
  {
    if |a| > 0 {
      assert (a + b)[1..] == a[1..] + b;
      DecidedAppend(a[1..], b);
    } else {
      assert a + b == b;
    }
  }

  lemma {:induction false} DecidedAt(fs: seq<Reply>, i: nat)
    requires Decided(fs) && i < |fs|
    ensures fs[i].action == Buy || fs[i].action == Skip
  {
    if i > 0 {
      DecidedAt(fs[1..], i - 1);
    }
  }

  lemma FinalsJoin(head: seq<Call>, final: Reply, rest: CycleRun)
    requires final.action == Buy || final.action == Skip
    requires FinalsDecided(rest)
    ensures FinalsDecided(Joined(head, [final], rest))
  {
    assert Decided([final]) by {
      assert [final][1..] == [];
    }
    DecidedAppend([final], rest.finals);
  }

  /** A round goes on only past a turn that ended on a BUY or a SKIP. */
  lemma RoundDecides(ids: seq<int>, n: int, k: nat, script: seq<Reply>, pos: nat)
    requires k < |ids| && pos <= |script| && CycleStep(ids, n, k, script, pos).Next?
    ensures var f := CycleStep(ids, n, k, script, pos).final; f.action == Buy || f.action == Skip
  {
    TurnEnds(ids, k, script[pos], script, pos + 1);
  }

  /**
   * The round of roster entry k records only a BUY or a SKIP: if it goes on and
   * the rest of the cycle records only BUY or SKIP, so does the cycle from k.
   */
  lemma FinalsRound(ids: seq<int>, n: int, k: nat, script: seq<Reply>, pos: nat)
    requires k < |ids| && pos <= |script|
    ensures var rd := CycleStep(ids, n, k, script, pos);
      (rd.Next? ==> FinalsDecided(CycleFrom(ids, n, k + 1, script, rd.pos))) ==> FinalsDecided(CycleFrom(ids, n, k, script, pos))
  {
    var rd := CycleStep(ids, n, k, script, pos);
    if rd.Next? {
      RoundDecides(ids, n, k, script, pos);
      CycleGoesOn(ids, n, k, script, pos);
      if FinalsDecided(CycleFrom(ids, n, k + 1, script, rd.pos)) {
        FinalsJoin(rd.calls, rd.final, CycleFrom(ids, n, k + 1, script, rd.pos));
      }
    } else {
      CycleHalts(ids, n, k, script, pos);
    }
  }

  /** Every final action a cycle records is a BUY or a SKIP. */
  lemma {:induction false} CycleFinals(ids: seq<int>, n: int, k: nat, script: seq<Reply>, pos: nat)
    requires k <= |ids| && pos <= |script|
    ensures FinalsDecided(CycleFrom(ids, n, k, script, pos))
    decreases |ids| - k
  {
    if k < |ids| {
      var rd := CycleStep(ids, n, k, script, pos);
      if rd.Next? {
        CycleFinals(ids, n, k + 1, script, rd.pos);
      }
      FinalsRound(ids, n, k, script, pos);
    }
  }

  /** A finished cycle gave every agent a final action, and each is a BUY or a SKIP. */
  lemma CycleFinishes(ids: seq<int>, n: int, script: seq<Reply>)
    requires CycleFrom(ids, n, 0, script, 0).end.AllEnded?
    ensures var c := CycleFrom(ids, n, 0, script, 0);
      |c.finals| == |ids| && forall i :: 0 <= i < |ids| ==> c.finals[i].action in {Buy, Skip}
  {
    var c := CycleFrom(ids, n, 0, script, 0);
    CycleFinals(ids, n, 0, script, 0);
    forall i | 0 <= i < |ids| ensures c.finals[i].action in {Buy, Skip} {
      DecidedAt(c.finals, i);
    }
  }

  /**
   * A TALK whose target resolves to exactly one agent: that agent is asked to
   * reply to the sender's message, then the sender is told the reply and the
   * turn goes on with the sender's next action.
   */
  lemma TalkRelay(ids: seq<int>, s: nat, a: Reply, script: seq<Reply>, pos: nat, t: nat)
    requires s < |ids| && pos + 1 < |script|
    requires a.action == Talk && Resolve(ids, a.dataId) == Resolved(t)
    ensures Turn(ids, s, a, script, pos) ==
      Prefixed([AskReply(t, MessageFrom(ids[s], a.content), s), Ask(s, RepliedBy(ids[t], script[pos].content))],
               Turn(ids, s, script[pos + 1], script, pos + 2))
  {
    TalkStep(ids, s, a, script, pos, t);
  }

  /** The loop pass of a TALK whose target resolves to exactly one agent. */
  lemma TalkStep(ids: seq<int>, s: nat, a: Reply, script: seq<Reply>, pos: nat, t: nat)
    requires s < |ids| && pos + 1 < |script|
    requires a.action == Talk && Resolve(ids, a.dataId) == Resolved(t)
    ensures TurnStep(ids, s, a, script, pos) ==
      Continue([AskReply(t, MessageFrom(ids[s], a.content), s), Ask(s, RepliedBy(ids[t], script[pos].content))],
               script[pos + 1], pos + 2)
  {
  }

  /** Nothing stops an agent from talking to itself: with a unique id it is asked to reply to its own message. */
  lemma SelfTalk(ids: seq<int>, s: nat, content: string, script: seq<Reply>, pos: nat)
    requires s < |ids| && ids[s] >= 0 && pos + 1 < |script|
    requires forall j :: 0 <= j < |ids| && ids[j] == ids[s] ==> j == s
    ensures var r := Turn(ids, s, Reply(Talk, IntId(ids[s]), content), script, pos);
      r.calls[..2] == [AskReply(s, MessageFrom(ids[s], content), s), Ask(s, RepliedBy(ids[s], script[pos].content))]
  {
    ResolveInt(ids, ids[s]);
    var t := Lookup(ids, IntId(ids[s]));
    LookupMeaning(ids, IntId(ids[s]));
    assert IdEquals(ids[s], IntId(ids[s]));
    assert t == Resolved(s);
    TalkRelay(ids, s, Reply(Talk, IntId(ids[s]), content), script, pos, s);
  }

  /** A TALK to a digit-only string makes an empty match list, and indexing it ends the cycle. */
  lemma DigitStringTalkFails(ids: seq<int>, s: nat, digits: string, content: string, script: seq<Reply>, pos: nat)
    requires s < |ids| && pos <= |script| && IsDigits(digits)
    ensures Turn(ids, s, Reply(Talk, StrId(digits), content), script, pos) == Run(Failed(EmptyLookup), pos, [])
  {
    ResolveDigitString(ids, digits);
  }

  /** A bare non-numeric name sends the sender the default message text, as if it had been delivered. */
  lemma BareNameReprompts(ids: seq<int>, s: nat, name: string, content: string, script: seq<Reply>, pos: nat)
    requires s < |ids| && pos < |script| && ':' !in name && !IsDigits(name)
    ensures Turn(ids, s, Reply(Talk, StrId(name), content), script, pos) ==
      Prefixed([Ask(s, MessageFrom(ids[s], content))], Turn(ids, s, script[pos], script, pos + 1))
  {
    ResolveBareName(ids, name);
  }

  /** A BUY or a SKIP ends the turn at once; an action that is none of BUY, SKIP and TALK leaves the loop spinning. */
  lemma DecisionEndsTurn(ids: seq<int>, s: nat, a: Reply, script: seq<Reply>, pos: nat)
    requires s < |ids| && pos <= |script|
    ensures a.action == Buy || a.action == Skip ==> Turn(ids, s, a, script, pos) == Run(Ended(a), pos, [])
    ensures a.action == Other ==> Turn(ids, s, a, script, pos) == Run(Spinning(a), pos, [])
  {
  }

  /** A TALK to a non-negative id that no agent has makes an empty match list, and indexing it ends the cycle. */
  lemma UnknownIdFails(ids: seq<int>, s: nat, n: int, content: string, script: seq<Reply>, pos: nat)
    requires s < |ids| && pos <= |script| && n >= 0
    requires forall j :: 0 <= j < |ids| ==> ids[j] != n
    ensures Turn(ids, s, Reply(Talk, IntId(n), content), script, pos) == Run(Failed(EmptyLookup), pos, [])
  {
    ResolveInt(ids, n);
    assert forall j :: 0 <= j < |ids| ==> !IdEquals(ids[j], IntId(n));
  }

  /** A negative int target reaches `.split` on an int, which ends the cycle. */
  lemma NegativeIdFails(ids: seq<int>, s: nat, n: int, content: string, script: seq<Reply>, pos: nat)
    requires s < |ids| && pos <= |script| && n < 0
    ensures Turn(ids, s, Reply(Talk, IntId(n), content), script, pos) == Run(Failed(SplitOnInt), pos, [])
  {
    ResolveInt(ids, n);
  }

  /** A TALK to an id several agents share asks the first of them, with the not-found text instead of the message. */
  lemma DuplicateTalk(ids: seq<int>, s: nat, n: int, content: string, script: seq<Reply>, pos: nat, t: nat, u: nat)
    requires s < |ids| && pos < |script| && n >= 0
    requires t < u < |ids| && ids[t] == n && ids[u] == n
    requires forall j :: 0 <= j < t ==> ids[j] != n
    ensures var r := Turn(ids, s, Reply(Talk, IntId(n), content), script, pos);
      |r.calls| > 0 && r.calls[0] == AskReply(t, NoSuchAgent, s)
  {
    ResolveInt(ids, n);
    assert IdEquals(ids[t], IntId(n)) && IdEquals(ids[u], IntId(n));
    assert forall j :: 0 <= j < t ==> !IdEquals(ids[j], IntId(n));
    assert Lookup(ids, IntId(n)) == Duplicate(t);
  }

  /** The SIMULATION row written for an agent whose initialisation ran for the first time. */
  function InitEvent(simId: int, a: Agent): Event {
    Event(None, simId, "SIMULATION", "Initialised Agent " + a.name + " with rewritten description: " + a.simDesc, None)
  }

  /** The rows the constructor writes, in roster order. */
  function InitEvents(simId: int, agents: seq<Agent>, firstRun: seq<bool>): seq<Event>
    requires |firstRun| == |agents|
  {
    if |agents| == 0 then []
    else
      InitEvents(simId, agents[..|agents| - 1], firstRun[..|agents| - 1])
      + (if firstRun[|agents| - 1] then [InitEvent(simId, agents[|agents| - 1])] else [])
  }

  /** The roster positions whose init_agent() reported a first run. */
  function FirstRuns(flags: seq<bool>): seq<nat> {
    if |flags| == 0 then []
    else FirstRuns(flags[..|flags| - 1]) + (if flags[|flags| - 1] then [|flags| - 1] else [])
  }

  /** FirstRuns lists exactly the positions of the set flags, in increasing order. */
  lemma {:induction false} FirstRunsMeaning(flags: seq<bool>)
    ensures var f := FirstRuns(flags);
      && (forall j :: 0 <= j < |f| ==> f[j] < |flags| && flags[f[j]])
      && (forall j, l :: 0 <= j < l < |f| ==> f[j] < f[l])
      && (forall i :: 0 <= i < |flags| && flags[i] ==> i in f)
  {
    if |flags| > 0 {
      var n := |flags| - 1;
      FirstRunsMeaning(flags[..n]);
      var f := FirstRuns(flags[..n]);
      assert forall i :: 0 <= i < n ==> flags[..n][i] == flags[i];
    }
  }

  /**
   * The constructor writes one SIMULATION row per agent initialised for the
   * first time, naming that agent, in roster order.
   */
  lemma {:induction false} InitEventsRows(simId: int, agents: seq<Agent>, firstRun: seq<bool>)
    requires |firstRun| == |agents|
    ensures var rows, f := InitEvents(simId, agents, firstRun), FirstRuns(firstRun);
      |rows| == |f| && forall j :: 0 <= j < |f| ==> f[j] < |agents| && rows[j] == InitEvent(simId, agents[f[j]])
  {
    if |agents| > 0 {
      var n := |agents| - 1;
      InitEventsRows(simId, agents[..n], firstRun[..n]);
      var f := FirstRuns(firstRun[..n]);
      var rows := InitEvents(simId, agents[..n], firstRun[..n]);
      assert forall j :: 0 <= j < |f| ==> agents[..n][f[j]] == agents[f[j]];
      if firstRun[n] {
        assert FirstRuns(firstRun) == f + [n];
        assert InitEvents(simId, agents, firstRun) == rows + [InitEvent(simId, agents[n])];
      } else {
        assert FirstRuns(firstRun) == f;
        assert InitEvents(simId, agents, firstRun) == rows;
      }
    }
  }

  /**
   * The constructor writes exactly one row per agent whose init_agent()
   * reported a first run, in roster order, and every row is a simulation-level
   * SIMULATION row naming that agent.
   */
  lemma InitEventsShape(simId: int, agents: seq<Agent>, firstRun: seq<bool>)
    requires |firstRun| == |agents|
    ensures var rows, f := InitEvents(simId, agents, firstRun), FirstRuns(firstRun);
      && |rows| == |f|
      && (forall j, l :: 0 <= j < l < |f| ==> f[j] < f[l])
      && (forall i :: 0 <= i < |agents| ==> (firstRun[i] <==> i in f))
      && forall j :: 0 <= j < |f| ==> f[j] < |agents| && rows[j] == InitEvent(simId, agents[f[j]])
    ensures forall e :: e in InitEvents(simId, agents, firstRun) ==>
      e.agent == None && e.simId == simId && e.kind == "SIMULATION" && e.cycle == None
  {
    InitEventsRows(simId, agents, firstRun);
    FirstRunsMeaning(firstRun);
  }

  /**
   * Lines 36-63 of proceed_cycle as written: the message for a TALK action and
   * the match list, None when no lookup was made; `crashed` when the id is an
   * int that is not all digits, on which `.split` is called.
   */
  method ParseTalkTarget(ids: seq<int>, senderId: int, action: Reply)
    returns (crashed: bool, promptMessage: Prompt, agentToTalk: Option<seq<nat>>)
    ensures var t := Resolve(ids, action.dataId);
      && crashed == t.Crash?
      && (t.FormatError? ==> agentToTalk.None? && promptMessage == BadFormat)
      && (t.Unparsed? ==> agentToTalk.None? && promptMessage == MessageFrom(senderId, action.content))
      && (t.NoMatch? ==> agentToTalk == Some([]))
      && (t.Resolved? ==> agentToTalk.Some? && |agentToTalk.value| > 0 && agentToTalk.value[0] == t.index
                          && promptMessage == MessageFrom(senderId, action.content))
      && (t.Duplicate? ==> agentToTalk.Some? && |agentToTalk.value| > 0 && agentToTalk.value[0] == t.index
                           && promptMessage == NoSuchAgent)
  {
    crashed := false;
    var message: Option<Prompt> := None;
    agentToTalk := None;
    var dataBundle := action.dataId;
    if IsDigits(PyStr(dataBundle)) {
      agentToTalk := Some(Matches(ids, dataBundle));
      if |agentToTalk.value| != 1 {
        message := Some(NoSuchAgent);
      }
    } else {
      if dataBundle.IntId? {
        // an int has no split method
        crashed := true;
        promptMessage := MessageFrom(senderId, action.content);
        return;
      }
      var split := Split(dataBundle.s, ':');
      if |split| > 2 {
        message := Some(BadFormat);
      }
      if |split| == 1 && IsDigits(split[0]) {
        agentToTalk := Some(Matches(ids, IntId(DigitsValue(split[0]))));
        if |agentToTalk.value| != 1 {
          message := Some(NoSuchAgent);
        }
      } else if |split| == 2 && !IsDigits(split[1]) {
        message := Some(BadFormat);
      } else if |split| == 2 && IsDigits(split[1]) {
        agentToTalk := Some(Matches(ids, IntId(DigitsValue(split[1]))));
        if |agentToTalk.value| != 1 {
          message := Some(NoSuchAgent);
        }
      }
    }
    promptMessage := if message.None? then MessageFrom(senderId, action.content) else message.value;
  }

  class Simulation {
    const id: int
    const envDesc: string
    const agents: seq<Agent>
    const products: seq<Product>
    /** Stored and never consulted by the operations modelled here. */
    const totalCycle: int
    var cycle: int
    /** The flag pause_simulation and resume_simulation set; those are not part of this model. */
    var paused: bool

    /**
     * Stores the roster and starts at cycle 1, then writes one SIMULATION row
     * per agent whose init_agent() reported a first run (firstRun, in roster order).
     */
    constructor (id: int, envDesc: string, agents: seq<Agent>, products: seq<Product>, totalCycle: int,
                 firstRun: seq<bool>, table: EventTable)
      requires |firstRun| == |agents|
      modifies table
      ensures this.id == id && this.envDesc == envDesc && this.agents == agents
      ensures this.products == products && this.totalCycle == totalCycle
      ensures cycle == 1 && !paused
      ensures table.rows == old(table.rows) + InitEvents(id, agents, firstRun)
    {
      this.id := id;
      this.envDesc := envDesc;
      this.agents := agents;
      this.products := products;
      this.totalCycle := totalCycle;
      cycle := 1;
      paused := false;
      new;
      for k := 0 to |agents|
        invariant cycle == 1 && !paused
        invariant table.rows == old(table.rows) + InitEvents(id, agents[..k], firstRun[..k])
      {
        if firstRun[k] {
          table.Create(InitEvent(id, agents[k]));
        }
        assert agents[..k + 1][..k] == agents[..k] && firstRun[..k + 1][..k] == firstRun[..k];
      }
      assert agents[..|agents|] == agents && firstRun[..|agents|] == firstRun;
    }

    /**
     * The inner `while True` of proceed_cycle for roster entry s, from its
     * current action on: it ends on BUY or SKIP, relays TALK actions and
     * re-asks the sender, and never leaves on any other action.
     */
    method TakeTurn(s: nat, first: Reply, script: seq<Reply>, pos0: nat) returns (r: Run)
      requires s < |agents| && pos0 <= |script|
      ensures r == Turn(Ids(agents), s, first, script, pos0)
    {
      var ids := Ids(agents);
      var action := first;
      var pos := pos0;
      var calls: seq<Call> := [];
      while true
        invariant pos0 <= pos <= |script|
        invariant Turn(ids, s, first, script, pos0) == Prefixed(calls, Turn(ids, s, action, script, pos))
        decreases |script| - pos
      {
        var st := PlayStep(s, action, script, pos);
        match st
        case Stop(end, used, stepCalls) =>
          return Run(end, used, calls + stepCalls);
        case Continue(stepCalls, next, p) =>
          PrefixedTwice(calls, stepCalls, Turn(ids, s, next, script, p));
          calls := calls + stepCalls;
          action := next;
          pos := p;
      }
    }

    /**
     * One pass of the inner `while True` of proceed_cycle for roster entry s:
     * BUY and SKIP end the turn, a TALK is relayed and the sender re-asked, and
     * on any other action nothing happens, so the loop would repeat forever.
     */
    method PlayStep(s: nat, action: Reply, script: seq<Reply>, pos: nat) returns (st: Step)
      requires s < |agents| && pos <= |script|
      ensures st == TurnStep(Ids(agents), s, action, script, pos)
    {
      var ids := Ids(agents);
      if action.action == Buy || action.action == Skip {
        return Stop(Ended(action), pos, []);
      }
      if action.action == Other {
        // no case matches and nothing changes: the source repeats this forever
        return Stop(Spinning(action), pos, []);
      }
      var crashed, promptMessage, agentToTalk := ParseTalkTarget(ids, agents[s].id, action);
      if crashed {
        return Stop(Failed(SplitOnInt), pos, []);
      }
      if agentToTalk.None? {
        var c := Ask(s, promptMessage);
        if pos == |script| {
          return Stop(Unanswered, pos, [c]);
        }
        return Continue([c], script[pos], pos + 1);
      }
      if |agentToTalk.value| == 0 {
        // agent_to_talk[0] on an empty list
        return Stop(Failed(EmptyLookup), pos, []);
      }
      var target := agentToTalk.value[0];
      var c := AskReply(target, promptMessage, s);
      if pos == |script| {
        return Stop(Unanswered, pos, [c]);
      }
      var actionNext := script[pos];
      var c' := Ask(s, RepliedBy(ids[target], actionNext.content));
      if pos + 1 == |script| {
        return Stop(Unanswered, pos + 1, [c, c']);
      }
      return Continue([c, c'], script[pos + 1], pos + 2);
    }

    /**
     * proceed_cycle: every agent in roster order is sent "Cycle n start" and
     * plays its turn; only when every turn ended does the cycle counter go up,
     * by exactly one.
     */
    method ProceedCycle(script: seq<Reply>) returns (r: CycleRun)
      modifies this`cycle
      ensures r == CycleFrom(Ids(agents), old(cycle), 0, script, 0)
      ensures cycle == if r.end.AllEnded? then old(cycle) + 1 else old(cycle)
    {
      r := PlayCycle(cycle, script);
      if r.end.AllEnded? {
        cycle := cycle + 1;
      }
    }

    /** The roster loop of proceed_cycle for cycle n: the turns of all agents, in roster order. */
    method PlayCycle(n: int, script: seq<Reply>) returns (r: CycleRun)
      ensures r == CycleFrom(Ids(agents), n, 0, script, 0)
    {
      ghost var ids := Ids(agents);
      var pos: nat := 0;
      var calls: seq<Call> := [];
      var finals: seq<Reply> := [];
      assert [] + CycleFrom(ids, n, 0, script, 0).calls == CycleFrom(ids, n, 0, script, 0).calls;
      assert [] + CycleFrom(ids, n, 0, script, 0).finals == CycleFrom(ids, n, 0, script, 0).finals;
      for k := 0 to |agents|
        invariant Played(ids, n, k, script, pos, calls, finals)
      {
        var rd := PlayRound(k, n, script, pos);
        if rd.Halt? {
          RoundHalts(ids, n, k, script, pos, calls, finals);
          return Joined(calls, finals, rd.c);
        }
        RoundGoesOn(ids, n, k, script, pos, calls, finals);
        calls := calls + rd.calls;
        finals := finals + [rd.final];
        pos := rd.pos;
      }
      RoundsDone(ids, n, script, pos, calls, finals);
      return CycleRun(AllEnded, pos, calls, finals);
    }

    /**
     * The body of the roster loop of proceed_cycle for roster entry k: the
     * agent is sent "Cycle n start" and plays its turn.
     */
    method PlayRound(k: nat, n: int, script: seq<Reply>, pos: nat) returns (rd: Round)
      requires k < |agents| && pos <= |script|
      ensures rd == CycleStep(Ids(agents), n, k, script, pos)
    {
      var start := Ask(k, CycleStart(n));
      if pos == |script| {
        return Halt(CycleRun(Stopped(k, Unanswered), pos, [start], []));
      }
      var turn := TakeTurn(k, script[pos], script, pos + 1);
      if !turn.end.Ended? {
        return Halt(CycleRun(Stopped(k, turn.end), turn.used, [start] + turn.calls, []));
      }
      return Next([start] + turn.calls, turn.end.final, turn.used);
    }
  }
}
