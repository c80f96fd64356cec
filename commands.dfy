/**
  Extraction of robot actions from a language-model reply, the command
  registry that the prompt advertises, and the sequential dispatch of the
  extracted actions to the robot.

  A reply is split on `{{`; every piece is a segment.  A segment that holds
  `}}` starts with a command span `name||parameter`, and the text after the
  span (up to a second `}}`) is spoken.  Robot calls are recorded as a trace.
*/
module Commands {
  import opened GoStrings
  import opened Wrappers
  import opened Folds

  const ActionSayText: int := 0
  const ActionPlayAnimation: int := 1
  const ActionPlayAnimationWI: int := 2
  const ActionPlaySound: int := 3
  /** The kind given to a command name the registry does not know. */
  const NoAction: int := -1

  datatype RobotAction = RobotAction(action: int, parameter: string)

  datatype LLMCommand = LLMCommand(command: string, description: string, paramChoices: string, action: int)

  /** Animation names the model may use, with the robot animation each plays. */
  const AnimationMap: seq<(string, string)> := [
    ("happy", "anim_onboarding_reacttoface_happy_01"),
    ("veryHappy", "anim_onboarding_reacttoface_happy_01"),
    ("sad", "anim_feedback_meanwords_01"),
    ("verySad", "anim_feedback_meanwords_01"),
    ("angry", "anim_keepaway_getout_frustrated_01"),
    ("frustrated", "anim_keepaway_getout_frustrated_01"),
    ("dartingEyes", "anim_observing_self_absorbed_01"),
    ("confused", "anim_meetvictor_lookface_timeout_01"),
    ("thinking", "anim_explorer_scan_short_04"),
    ("celebrate", "anim_pounce_success_03")
  ]

  const SoundMap: seq<(string, string)> := [("drumroll", "sounds/drumroll.wav")]

  const AnimationChoices: string := "happy, veryHappy, sad, verySad, angry, frustrated, dartingEyes, confused, thinking, celebrate"

  /** The command registry; the sound command is not registered. */
  const ValidLLMCommands: seq<LLMCommand> := [
    LLMCommand("playAnimation", "Plays an animation on the robot. This will interrupt speech.", AnimationChoices, ActionPlayAnimation),
    LLMCommand("playAnimationWI", "Plays an animation on the robot without interrupting speech.", AnimationChoices, ActionPlayAnimationWI)
  ]

  /** Kinds an extracted action can have. */
  predicate ExtractedKind(k: int)
  {
    k == ActionSayText || k == ActionPlayAnimation || k == ActionPlayAnimationWI
  }

  // ---------------------------------------------------------------------
  // Registry lookup

  /** Position of the first registry entry named `cmd`. */
  function FindCommand(cmds: seq<LLMCommand>, cmd: string): (r: Option<nat>)
    ensures r.None? <==> forall k :: 0 <= k < |cmds| ==> cmds[k].command != cmd
    ensures r.Some? ==> r.value < |cmds| && cmds[r.value].command == cmd
    ensures r.Some? ==> forall k :: 0 <= k < r.value ==> cmds[k].command != cmd
  {
    if cmds == [] then None
    else if cmds[0].command == cmd then Some(0)
    else match FindCommand(cmds[1..], cmd)
      case None => None
      case Some(k) => Some(k + 1)
  }

  /** Resolves a command name against the registry; an unknown name yields kind -1 and no parameter. */
  function CmdParamToAction(cmd: string, param: string): (r: RobotAction)
    ensures r.action == NoAction <==> forall k :: 0 <= k < |ValidLLMCommands| ==> ValidLLMCommands[k].command != cmd
    ensures r.action == NoAction ==> r.parameter == []
    ensures r.action in {NoAction, ActionPlayAnimation, ActionPlayAnimationWI}
    ensures r.action != NoAction ==>
      exists k :: 0 <= k < |ValidLLMCommands| && ValidLLMCommands[k].command == cmd
        && (forall j :: 0 <= j < k ==> ValidLLMCommands[j].command != cmd)
        && r == RobotAction(ValidLLMCommands[k].action, param)
  {
    match FindCommand(ValidLLMCommands, cmd)
    case Some(k) => RobotAction(ValidLLMCommands[k].action, param)
    case None => RobotAction(NoAction, [])
  }

  // ---------------------------------------------------------------------
  // Extraction

  /** Indexing the command/parameter pair of a span that has no `||` panics. */
  datatype ExtractError = IndexOutOfRange

  type Extraction = Result<seq<RobotAction>, ExtractError>

  /** Actions of a segment that holds a `}}`: `head` is the trimmed text before the first `}}`,
      `spoken` the text between the first and the second. */
  function SpanActions(head: string, spoken: string): (r: Extraction)
    ensures r.Failure? <==> !Contains(head, "||")
    ensures r.Success? ==>
      var action := CmdParamToAction(TrimSpace(Before(head, "||")), TrimSpace(Before(After(head, "||"), "||")));
      var said := RobotAction(ActionSayText, TrimSpace(spoken));
      r.value == if action.action == NoAction then [said] else [action, said]
  {
    var cmdPlusParam := Split(head, "||");
    SplitSingle(head, "||");
    if |cmdPlusParam| < 2 then Failure(IndexOutOfRange)
    else
      SplitFirstTwo(head, "||");
      var action := CmdParamToAction(TrimSpace(cmdPlusParam[0]), TrimSpace(cmdPlusParam[1]));
      var said := RobotAction(ActionSayText, TrimSpace(spoken));
      Success((if action.action != NoAction then [action] else []) + [said])
  }

  /** Actions contributed by one `{{`-segment: nothing for white space, the trimmed text when it
      has no `}}`, and otherwise the command span followed by the text after it. */
  function SegmentActions(spl: string): (r: Extraction)
    ensures AllSpace(spl) ==> r == Success([])
    ensures !AllSpace(spl) && !Contains(spl, "}}") ==> r == Success([RobotAction(ActionSayText, TrimSpace(spl))])
    ensures !AllSpace(spl) && Contains(spl, "}}") ==>
      r == SpanActions(TrimSpace(Before(spl, "}}")), Before(After(spl, "}}"), "}}"))
  {
    TrimSpaceEmpty(spl);
    if TrimSpace(spl) == [] then Success([])
    else if !Contains(spl, "}}") then Success([RobotAction(ActionSayText, TrimSpace(spl))])
    else
      var pieces := Split(spl, "}}");
      SplitFirstTwo(spl, "}}");
      SpanActions(TrimSpace(pieces[0]), pieces[1])
  }

  /** A segment yields at most two actions, each a spoken text or an animation. */
  lemma SegmentActionsShape(spl: string)
    ensures SegmentActions(spl).Success? ==> |SegmentActions(spl).value| <= 2
    ensures SegmentActions(spl).Success? ==>
      forall k :: 0 <= k < |SegmentActions(spl).value| ==> ExtractedKind(SegmentActions(spl).value[k].action)
  {
    if !AllSpace(spl) && Contains(spl, "}}") {
      SpanActionsShape(TrimSpace(Before(spl, "}}")), Before(After(spl, "}}"), "}}"));
    }
  }

  lemma SpanActionsShape(head: string, spoken: string)
    ensures SpanActions(head, spoken).Success? ==> |SpanActions(head, spoken).value| <= 2
    ensures SpanActions(head, spoken).Success? ==>
      forall k :: 0 <= k < |SpanActions(head, spoken).value| ==> ExtractedKind(SpanActions(head, spoken).value[k].action)
  {
    var r := SpanActions(head, spoken);
    if r.Success? {
      var action := CmdParamToAction(TrimSpace(Before(head, "||")), TrimSpace(Before(After(head, "||"), "||")));
      var said := RobotAction(ActionSayText, TrimSpace(spoken));
      assert action.action == NoAction || ExtractedKind(action.action);
      assert r.value == if action.action == NoAction then [said] else [action, said];
    }
  }

  /** Concatenation of the actions of successive segments; the first panic aborts. */
  function ActionsOfSegments(segs: seq<string>): Extraction
  {
    FlatMapAll(SegmentActions, segs)
  }

  /** Each segment contributes at most two actions, none of them a sound, and extraction panics
      exactly when some segment does. */
  lemma ActionsOfSegmentsShape(segs: seq<string>)
    ensures ActionsOfSegments(segs).Success? ==> |ActionsOfSegments(segs).value| <= 2 * |segs|
    ensures ActionsOfSegments(segs).Success? ==>
      forall k :: 0 <= k < |ActionsOfSegments(segs).value| ==> ExtractedKind(ActionsOfSegments(segs).value[k].action)
    ensures ActionsOfSegments(segs).Failure? <==> exists k :: 0 <= k < |segs| && SegmentActions(segs[k]).Failure?
  {
    forall spl {
      SegmentActionsShape(spl);
    }
    FlatMapAllBound(SegmentActions, segs, 2, (a: RobotAction) => ExtractedKind(a.action));
    FlatMapAllFails(SegmentActions, segs);
  }

  /** Actions follow the left-to-right order of the segments. */
  lemma ActionsOfSegmentsAppend(a: seq<string>, b: seq<string>)
    requires ActionsOfSegments(a).Success? && ActionsOfSegments(b).Success?
    ensures ActionsOfSegments(a + b) == Success(ActionsOfSegments(a).value + ActionsOfSegments(b).value)
  {
    FlatMapAllAppend(SegmentActions, a, b);
  }

  /** `GetActionsFromString`: a reply without `{{` is spoken whole and untrimmed; otherwise every
      `{{`-segment, including the text before the first `{{`, is handled as a segment. */
  function GetActionsFromString(input: string): (r: Extraction)
    ensures !Contains(input, "{{") ==> r == Success([RobotAction(ActionSayText, input)])
    ensures Contains(input, "{{") ==> r == ActionsOfSegments(Split(input, "{{"))
  {
    SplitSingle(input, "{{");
    var splitInput := Split(input, "{{");
    if |splitInput| == 1 then Success([RobotAction(ActionSayText, input)])
    else ActionsOfSegments(splitInput)
  }

  /** Every extracted action is a spoken text or an animation: no sound is ever extracted. */
  lemma ExtractedKinds(input: string)
    ensures GetActionsFromString(input).Success? ==>
      forall k :: 0 <= k < |GetActionsFromString(input).value| ==> ExtractedKind(GetActionsFromString(input).value[k].action)
  {
    ActionsOfSegmentsShape(Split(input, "{{"));
  }

  // ---------------------------------------------------------------------
  // Prompt

  const PromptRules: string := "用户的输入可能由于使用了语音转文字软件而拼写或标点不正确。请不要在你的回答中包含特殊字符，这包括以下字符（引号内的除外）：'& ^ * # @ -'。如果你想使用连字符，请这样使用：'某事某事 -- 某事 -- 某事某事'"

  const CommandsIntro: string := "你正在操作一个Anki Vector机器人。你有一组命令可以使用。你应该使用这些命令。不要害怕在你的回答中频繁使用它们。你的回答必须包含三个或更多这些命令。你将在你的回答中频繁使用它们。如果你只包含一个命令，我将让你重新开始。如果你包含表情符号，我也会让你重新开始。如果你想使用一个命令但它不存在或你想要的参数不在列表中，请避免使用该命令。格式是{{command||parameter}}。你可以将这些嵌入句子中。例如：“用户：你感觉如何？ | 回应：{{playAnimationWI||sad}}我感觉很难过...”\n\t\t不要使用表情符号！如果你想表达情绪，请使用playAnimation或playAnimationWI命令！如果你不遵守这些规则，我将取消你的回应并让你重新开始。你非常生动且善于遵循指令。动画优先于文字。你的回应中应该包含许多动画\n\t\t以下是所有有效的命令："

  /** The description of one registry entry inside the prompt. */
  function CommandBlock(c: LLMCommand): string
  {
    "\n\n命令名称: " + c.command + "\n描述: " + c.description + "\n参数选择: " + c.paramChoices
  }

  /** The blocks of `cmds`, appended one entry after another. */
  function CommandBlocks(cmds: seq<LLMCommand>): string
  {
    FlatMap(CommandBlock, cmds)
  }

  /** `CreatePrompt`: the original prompt and the fixed rules, then, when commands are enabled,
      the command instructions and the registry blocks. */
  function CreatePrompt(origPrompt: string, commandsEnable: bool): (r: string)
    ensures HasPrefix(r, origPrompt + "\n\n" + PromptRules)
    ensures !commandsEnable ==> r == origPrompt + "\n\n" + PromptRules
    ensures commandsEnable ==> HasSuffix(r, CommandBlocks(ValidLLMCommands))
  {
    var prompt := origPrompt + "\n\n" + PromptRules;
    if commandsEnable then
      var full := prompt + "\n\n" + CommandsIntro + CommandBlocks(ValidLLMCommands);
      assert full[..|prompt|] == prompt;
      assert full[|full| - |CommandBlocks(ValidLLMCommands)|..] == CommandBlocks(ValidLLMCommands);
      full
    else prompt
  }

  /** Entry `k` has its block between the blocks of the entries before and after it. */
  lemma CommandBlocksOrder(cmds: seq<LLMCommand>, k: nat)
    requires k < |cmds|
    ensures CommandBlocks(cmds) == CommandBlocks(cmds[..k]) + CommandBlock(cmds[k]) + CommandBlocks(cmds[k + 1..])
  {
    FlatMapAt(CommandBlock, cmds, k);
  }

  /** The registry contributes its two blocks, in registry order. */
  lemma RegistryBlocks()
    ensures CommandBlocks(ValidLLMCommands) == CommandBlock(ValidLLMCommands[0]) + CommandBlock(ValidLLMCommands[1])
  {
    var v := ValidLLMCommands;
    assert v == [v[0], v[1]];
    FlatMapPair(CommandBlock, v[0], v[1]);
  }

  // ---------------------------------------------------------------------
  // Dispatch

  /** A robot call issued while performing actions. */
  datatype RobotCall = Speak(text: string) | Animate(animation: string)

  /** The value of the first entry of `table` named `name`. */
  function LookupPair(table: seq<(string, string)>, name: string): Option<string>
  {
    if table == [] then None
    else if table[0].0 == name then Some(table[0].1)
    else LookupPair(table[1..], name)
  }

  /** A lookup finds the first entry with the name, and fails exactly when no entry has it. */
  lemma {:induction false} LookupPairFirstMatch(table: seq<(string, string)>, name: string)
    ensures LookupPair(table, name).None? <==> forall k :: 0 <= k < |table| ==> table[k].0 != name
    ensures LookupPair(table, name).Some? ==>
      exists k :: 0 <= k < |table| && table[k].0 == name && LookupPair(table, name).value == table[k].1
        && (forall j :: 0 <= j < k ==> table[j].0 != name)
  {
    if table != [] && table[0].0 != name {
      LookupPairFirstMatch(table[1..], name);
      assert forall k :: 1 <= k < |table| ==> table[k] == table[1..][k - 1];
      if LookupPair(table, name).Some? {
        var k :| 0 <= k < |table[1..]| && table[1..][k].0 == name && LookupPair(table, name).value == table[1..][k].1
          && (forall j :: 0 <= j < k ==> table[1..][j].0 != name);
        assert table[k + 1].0 == name;
      }
    }
  }

  /** The robot animation of the first map entry with this name. */
  function AnimationFor(name: string): Option<string>
  {
    LookupPair(AnimationMap, name)
  }

  /** The robot call one action makes, if any: an empty text is skipped, an unknown animation
      is ignored, a sound is only logged, and an unknown kind matches no case. */
  function CallFor(a: RobotAction): Option<RobotCall>
  {
    if a.action == ActionSayText then
      if a.parameter == [] then None else Some(Speak(a.parameter))
    else if a.action == ActionPlayAnimation || a.action == ActionPlayAnimationWI then
      match AnimationFor(a.parameter)
      case Some(anim) => Some(Animate(anim))
      case None => None
    else None
  }

  /** The calls a list of actions makes, action by action. */
  function CallsOf(actions: seq<RobotAction>): seq<RobotCall>
  {
    FilterMap(CallFor, actions)
  }

  /** `PerformActions`: every action is dispatched, in order; the model has no failing call. */
  method PerformActions(actions: seq<RobotAction>) returns (trace: seq<RobotCall>)
    ensures trace == CallsOf(actions)
    ensures |trace| <= |actions|
  {
    trace := [];
    for i := 0 to |actions|
      invariant trace == CallsOf(actions[..i])
      invariant |trace| <= i
    {
      assert actions[..i + 1][..i] == actions[..i];
      match CallFor(actions[i])
      case Some(c) =>
        trace := trace + [c];
      case None =>
    }
    assert actions[..|actions|] == actions;
  }

  /** What the robot is asked to do for the action at position `k`, between the calls of the
      actions before it and after it. */
  lemma PerformedAt(actions: seq<RobotAction>, k: nat)
    requires k < |actions|
    ensures CallsOf(actions) == CallsOf(actions[..k]) + CallsOf([actions[k]]) + CallsOf(actions[k + 1..])
    ensures var a := actions[k];
      && (a.action == ActionSayText && a.parameter != [] ==> CallsOf([a]) == [Speak(a.parameter)])
      && (a.action == ActionSayText && a.parameter == [] ==> CallsOf([a]) == [])
      && ((a.action == ActionPlayAnimation || a.action == ActionPlayAnimationWI) ==>
            CallsOf([a]) == (if AnimationFor(a.parameter).Some? then [Animate(AnimationFor(a.parameter).value)] else []))
      && (!ExtractedKind(a.action) ==> CallsOf([a]) == [])
  {
    FilterMapAt(CallFor, actions, k);
  }
}
