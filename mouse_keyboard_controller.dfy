/**
  The desktop-automation step executor. A step is a dictionary whose `type`
  selects a handler (`click`, `type`, `key`, `scroll`, `drag`); each handler
  checks its arguments and either fails with a fixed message or succeeds
  with an action description. Device effects are not performed: a
  successful step records the request it would send to the mouse or
  keyboard.
 */
module Controller {
  import opened Values

  /**
    A request to the device library, with its position, key, text and button
    arguments as given (defaults filled in). Timing arguments (`interval`,
    `duration`) are dropped.
   */
  datatype DeviceCall =
    | Click(x: Value, y: Value, clicks: Value, button: Value)
    | Write(text: Value)
    | Press(key: Value, presses: Value)
    | MoveTo(x: Value, y: Value)
    | Scroll(dy: Value, x: Value, y: Value)
    | Drag(x1: Value, y1: Value, x2: Value, y2: Value, button: Value)

  /**
    `{"success": True, "action": ...}` or `{"success": False, "error": ...}`,
    with the device requests made before the result was decided (a handler
    that raises may already have driven the keyboard).
   */
  datatype StepResult = Succeeded(action: string, calls: seq<DeviceCall>) | Failed(error: string, calls: seq<DeviceCall>)

  const ClickNeedsCoordinates := "点击操作需要x和y坐标"
  const TypeNeedsText := "输入操作需要text参数"
  const KeyNeedsKey := "按键操作需要key参数"
  const ScrollNeedsDelta := "滚动操作需要dx或dy参数"
  const DragNeedsEnds := "拖拽操作需要起始和结束坐标"
  const UnknownType := "未知的操作类型: "
  const StepRaised := "执行操作失败: "
  /** `str(e)` for the `TypeError` of `list + str`. */
  const ListPlusStr := "can only concatenate list (not \"str\") to list"
  /** `str(e)` for the `TypeError` of slicing a dictionary (Python 3.11 and earlier). */
  const SliceOfDict := "unhashable type: 'slice'"
  /** Longer texts are logged as their first 50 items followed by `...`. */
  const PreviewLength := 50

  /** `v == 0` in Python: true for `0` and `False`. */
  predicate EqualsZero(v: Value) {
    v == VInt(0) || v == VBool(false)
  }

  /** `a or b` */
  function Or(a: Value, b: Value): (r: Value)
    ensures Truthy(a) ==> r == a
    ensures !Truthy(a) ==> r == b
  {
    if Truthy(a) then a else b
  }

  function ExecuteClick(step: Dict): (r: StepResult)
    ensures r.Failed? <==> Get(step, "x", VNone) == VNone || Get(step, "y", VNone) == VNone
    ensures r.Failed? ==> r == Failed(ClickNeedsCoordinates, [])
    ensures r.Succeeded? ==> r.calls == [Click(step["x"], step["y"], Get(step, "clicks", VInt(1)), Get(step, "button", VStr("left")))]
  {
    var x := Get(step, "x", VNone);
    var y := Get(step, "y", VNone);
    var clicks := Get(step, "clicks", VInt(1));
    var button := Get(step, "button", VStr("left"));
    if x == VNone || y == VNone then Failed(ClickNeedsCoordinates, [])
    else Succeeded("点击 (" + Show(x) + ", " + Show(y) + ")", [Click(x, y, clicks, button)])
  }

  /**
    The `type` handler. A falsy text fails; a string succeeds, describing its
    first 20 characters. Other truthy values meet the log preview
    `text[:50] + "..."` (for more than 50 items), `len(text)`, the write and
    `text[:20]`: a list longer than 50 items raises before the write, a
    dictionary raises after it when it is short enough to reach it, and a
    number or boolean has no length.
   */
  function ExecuteType(step: Dict): (r: StepResult)
    ensures var text := Get(step, "text", VStr(""));
      && (!Truthy(text) ==> r == Failed(TypeNeedsText, []))
      && (text.VStr? && text.s != "" ==>
            r == Succeeded("输入文本: " + Take(text.s, 20) + "...", [Write(text)]))
      && (text.VList? && text.items != [] ==>
            (r.Succeeded? <==> |text.items| <= PreviewLength) && (r.Succeeded? ==> r.calls == [Write(text)]))
      && (text.VList? && |text.items| > PreviewLength ==> r == Failed(StepRaised + ListPlusStr, []))
      && (text.VDict? || text.VInt? || text.VBool? ==> r.Failed?)
      && (text.VDict? && text.entries != map[] ==>
            r.Failed? && (r.calls == [Write(text)] <==> |text.entries| <= PreviewLength))
  {
    var text := Get(step, "text", VStr(""));
    if !Truthy(text) then Failed(TypeNeedsText, [])
    else match text
      case VStr(s) => Succeeded("输入文本: " + Take(s, 20) + "...", [Write(text)])
      case VList(items) =>
        if |items| > PreviewLength then Failed(StepRaised + ListPlusStr, [])
        else Succeeded("输入文本: " + Show(VList(Take(items, 20))) + "...", [Write(text)])
      case VDict(entries) =>
        if |entries| > PreviewLength then Failed(StepRaised + SliceOfDict, [])
        else Failed(StepRaised + SliceOfDict, [Write(text)])
      case _ => Failed(StepRaised + "object of type '" + TypeName(text) + "' has no len()", [])
  }

  function ExecuteKey(step: Dict): (r: StepResult)
    ensures r.Failed? <==> !Truthy(Get(step, "key", VNone))
    ensures r.Failed? ==> r == Failed(KeyNeedsKey, [])
    ensures r.Succeeded? ==> r.calls == [Press(step["key"], Get(step, "presses", VInt(1)))]
  {
    var key := Get(step, "key", VNone);
    var presses := Get(step, "presses", VInt(1));
    if !Truthy(key) then Failed(KeyNeedsKey, [])
    else Succeeded("按下按键: " + Show(key), [Press(key, presses)])
  }

  /** The `scroll` handler: it needs a non-zero `dx` or `dy`, and only `dy` reaches the device. */
  function ExecuteScroll(step: Dict): (r: StepResult)
    ensures r.Failed? <==> EqualsZero(Get(step, "dx", VInt(0))) && EqualsZero(Get(step, "dy", VInt(0)))
    ensures r.Failed? ==> r == Failed(ScrollNeedsDelta, [])
    ensures r.Succeeded? ==> |r.calls| >= 1 && r.calls[|r.calls| - 1] == Scroll(Get(step, "dy", VInt(0)), Get(step, "x", VNone), Get(step, "y", VNone))
    ensures r.Succeeded? ==> (|r.calls| == 2 <==> Get(step, "x", VNone) != VNone && Get(step, "y", VNone) != VNone)
  {
    var x := Get(step, "x", VNone);
    var y := Get(step, "y", VNone);
    var dx := Get(step, "dx", VInt(0));
    var dy := Get(step, "dy", VInt(0));
    if EqualsZero(dx) && EqualsZero(dy) then Failed(ScrollNeedsDelta, [])
    else
      var move := if x != VNone && y != VNone then [MoveTo(x, y)] else [];
      Succeeded("滚动: dx=" + Show(dx) + ", dy=" + Show(dy), move + [Scroll(dy, x, y)])
  }

  /** The `drag` handler: a falsy `x1` or `y1` (so also `0`) falls back to `x` or `y`. */
  function ExecuteDrag(step: Dict): (r: StepResult)
    ensures var x1 := Or(Get(step, "x1", VNone), Get(step, "x", VNone));
      var y1 := Or(Get(step, "y1", VNone), Get(step, "y", VNone));
      && (r.Failed? <==> x1 == VNone || y1 == VNone || Get(step, "x2", VNone) == VNone || Get(step, "y2", VNone) == VNone)
      && (r.Failed? ==> r == Failed(DragNeedsEnds, []))
      && (r.Succeeded? ==> r.calls == [Drag(x1, y1, step["x2"], step["y2"], Get(step, "button", VStr("left")))])
  {
    var x1 := Or(Get(step, "x1", VNone), Get(step, "x", VNone));
    var y1 := Or(Get(step, "y1", VNone), Get(step, "y", VNone));
    var x2 := Get(step, "x2", VNone);
    var y2 := Get(step, "y2", VNone);
    var button := Get(step, "button", VStr("left"));
    if x1 == VNone || y1 == VNone || x2 == VNone || y2 == VNone then Failed(DragNeedsEnds, [])
    else Succeeded("拖拽: (" + Show(x1) + ", " + Show(y1) + ") -> (" + Show(x2) + ", " + Show(y2) + ")", [Drag(x1, y1, x2, y2, button)])
  }

  /**
    `execute_step`: dispatch on `type`; any other type fails and touches no
    device, and the only step that fails after touching one is a `type`
    step whose text is a dictionary.
   */
  function ExecuteStep(step: Dict): (r: StepResult)
    ensures var t := Get(step, "type", VNone);
      !(t in {VStr("click"), VStr("type"), VStr("key"), VStr("scroll"), VStr("drag")}) ==> r == Failed(UnknownType + Show(t), [])
    ensures r.Succeeded? ==> |r.calls| >= 1
    ensures r.Failed? && r.calls != [] ==>
      Get(step, "type", VNone) == VStr("type") && Get(step, "text", VStr("")).VDict? && r.calls == [Write(Get(step, "text", VStr("")))]
  {
    var stepType := Get(step, "type", VNone);
    if stepType == VStr("click") then ExecuteClick(step)
    else if stepType == VStr("type") then ExecuteType(step)
    else if stepType == VStr("key") then ExecuteKey(step)
    else if stepType == VStr("scroll") then ExecuteScroll(step)
    else if stepType == VStr("drag") then ExecuteDrag(step)
    else Failed(UnknownType + Show(stepType), [])
  }

  datatype NumberedResult = NumberedResult(step: nat, result: StepResult)

  datatype StepsReport = StepsReport(success: bool, totalSteps: nat, successSteps: nat, results: seq<NumberedResult>)

  /** Whether each step succeeds. */
  function Outcomes(steps: seq<Dict>): (oks: seq<bool>)
    ensures |oks| == |steps|
  {
    seq(|steps|, i requires 0 <= i < |steps| => ExecuteStep(steps[i]).Succeeded?)
  }

  /** The number of `true`s in `bs`. */
  function CountTrue(bs: seq<bool>): nat
    decreases |bs|
  {
    if bs == [] then 0 else CountTrue(bs[..|bs| - 1]) + (if bs[|bs| - 1] then 1 else 0)
  }

  lemma {:induction false} CountTrueBounds(bs: seq<bool>)
    ensures CountTrue(bs) <= |bs|
    ensures CountTrue(bs) == |bs| <==> forall i :: 0 <= i < |bs| ==> bs[i]
    decreases |bs|
  {
    if bs != [] {
      var init := bs[..|bs| - 1];
      CountTrueBounds(init);
      assert forall i :: 0 <= i < |init| ==> init[i] == bs[i];
    }
  }

  /** The number of steps that succeed. */
  function CountSucceeded(steps: seq<Dict>): nat {
    CountTrue(Outcomes(steps))
  }

  /** At most every step succeeds, and the count reaches the number of steps exactly when every one does. */
  lemma CountSucceededBounds(steps: seq<Dict>)
    ensures CountSucceeded(steps) <= |steps|
    ensures CountSucceeded(steps) == |steps| <==> forall i :: 0 <= i < |steps| ==> ExecuteStep(steps[i]).Succeeded?
  {
    var oks := Outcomes(steps);
    CountTrueBounds(oks);
    if forall i :: 0 <= i < |steps| ==> ExecuteStep(steps[i]).Succeeded? {
      assert forall i :: 0 <= i < |oks| ==> oks[i];
    } else {
      var i :| 0 <= i < |steps| && !ExecuteStep(steps[i]).Succeeded?;
      assert !oks[i];
    }
  }

  /** The result of each step, numbered from 1. */
  function StepResults(steps: seq<Dict>): (rs: seq<NumberedResult>)
    ensures |rs| == |steps|
  {
    seq(|steps|, i requires 0 <= i < |steps| => NumberedResult(i + 1, ExecuteStep(steps[i])))
  }

  /**
    `execute_steps`: every step runs, whatever the earlier ones gave; the
    results are numbered from 1 in input order, and the whole succeeds
    exactly when every step does (so an empty list succeeds).
   */
  method ExecuteSteps(steps: seq<Dict>) returns (report: StepsReport)
    ensures report.totalSteps == |steps| && |report.results| == |steps|
    ensures forall i :: 0 <= i < |steps| ==> report.results[i] == NumberedResult(i + 1, ExecuteStep(steps[i]))
    ensures report.successSteps == CountSucceeded(steps) <= |steps|
    ensures report.success <==> forall i :: 0 <= i < |steps| ==> ExecuteStep(steps[i]).Succeeded?
  {
    var results: seq<NumberedResult> := [];
    var successCount := 0;
    for i := 0 to |steps|
      invariant results == StepResults(steps)[..i]
      invariant successCount == CountTrue(Outcomes(steps)[..i])
    {
      var stepNum := i + 1;
      var result := ExecuteStep(steps[i]);
      var numbered := NumberedResult(stepNum, result);
      results := results + [numbered];
      assert Outcomes(steps)[..i + 1][..i] == Outcomes(steps)[..i];
      assert StepResults(steps)[..i + 1] == StepResults(steps)[..i] + [numbered];
      if numbered.result.Succeeded? {
        successCount := successCount + 1;
      }
    }
    assert Outcomes(steps)[..|steps|] == Outcomes(steps);
    assert results == StepResults(steps);
    CountSucceededBounds(steps);
    report := StepsReport(successCount == |steps|, |steps|, successCount, results);
  }

  /**
    A step without `x` cannot click, a scroll by `False` is no scroll, a step
    whose type is not a string is an unknown type, a click at the origin is
    a click, a list of 51 characters cannot be typed, and a short dictionary
    is written before `text[:20]` raises.
   */
  lemma StepExamples()
    ensures ExecuteStep(map["type" := VStr("click"), "y" := VInt(3)]) == Failed(ClickNeedsCoordinates, [])
    ensures ExecuteStep(map["type" := VStr("scroll"), "dx" := VBool(false)]) == Failed(ScrollNeedsDelta, [])
    ensures ExecuteStep(map["type" := VInt(1)]) == Failed(UnknownType + "1", [])
    ensures ExecuteStep(map["type" := VStr("click"), "x" := VInt(0), "y" := VInt(0)]).Succeeded?
    ensures ExecuteStep(map["type" := VStr("type"), "text" := VList(seq(51, _ => VStr("a")))]) == Failed(StepRaised + ListPlusStr, [])
    ensures ExecuteStep(map["type" := VStr("type"), "text" := VDict(map["a" := VInt(1)])])
      == Failed(StepRaised + SliceOfDict, [Write(VDict(map["a" := VInt(1)]))])
  {
    assert Show(VInt(1)) == "1" by { assert NatToString(1) == "1"; }
  }
}
