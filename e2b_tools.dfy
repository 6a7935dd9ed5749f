/**
 * The desktop tools an agent calls on its cloud sandbox (click, type, press
 * a key, move, scroll), the dispatch table and schema list offered to the
 * model, and `execute_tool`, which dispatches a call by name.
 *
 * The sandbox is external; it is modelled as the trace of actions it is
 * asked to perform.  Tool arguments arrive as decoded JSON: integers or
 * strings here.
 */
module E2bTools {
  import opened Wrappers
  import opened Strings

  /** A decoded tool argument. */
  datatype Arg = Int(i: int) | Str(s: string)

  /** Python's `f"{v}"` for an argument. */
  function Show(v: Arg): string {
    match v
    case Int(i) => IntToString(i)
    case Str(s) => s
  }

  /** What the sandbox is asked to do. */
  datatype Action =
    | LeftClick(x: Arg, y: Arg)
    | DoubleClick(x: Arg, y: Arg)
    | Write(text: string)
    | Press(key: Arg)
    | MoveMouse(x: Arg, y: Arg)
    | Scroll(direction: Arg, amount: Arg)

  /** The sandbox, seen through the actions performed on it. */
  class Sandbox {
    var actions: seq<Action>

    constructor()
      ensures actions == []
    {
      actions := [];
    }
  }

  // ---------------------------------------------------------------- the tools

  method Click(sandbox: Sandbox, x: Arg, y: Arg) returns (r: string)
    modifies sandbox
    ensures sandbox.actions == old(sandbox.actions) + [LeftClick(x, y)]
    ensures r == "Clicked at (" + Show(x) + ", " + Show(y) + ")"
  {
    sandbox.actions := sandbox.actions + [LeftClick(x, y)];
    r := "Clicked at (" + Show(x) + ", " + Show(y) + ")";
  }

  method DoubleClickAt(sandbox: Sandbox, x: Arg, y: Arg) returns (r: string)
    modifies sandbox
    ensures sandbox.actions == old(sandbox.actions) + [DoubleClick(x, y)]
    ensures r == "Double-clicked at (" + Show(x) + ", " + Show(y) + ")"
  {
    sandbox.actions := sandbox.actions + [DoubleClick(x, y)];
    r := "Double-clicked at (" + Show(x) + ", " + Show(y) + ")";
  }

  method PressKey(sandbox: Sandbox, key: Arg) returns (r: string)
    modifies sandbox
    ensures sandbox.actions == old(sandbox.actions) + [Press(key)]
    ensures r == "Pressed: " + Show(key)
  {
    sandbox.actions := sandbox.actions + [Press(key)];
    r := "Pressed: " + Show(key);
  }

  method MoveMouseTo(sandbox: Sandbox, x: Arg, y: Arg) returns (r: string)
    modifies sandbox
    ensures sandbox.actions == old(sandbox.actions) + [MoveMouse(x, y)]
    ensures r == "Moved mouse to (" + Show(x) + ", " + Show(y) + ")"
  {
    sandbox.actions := sandbox.actions + [MoveMouse(x, y)];
    r := "Moved mouse to (" + Show(x) + ", " + Show(y) + ")";
  }

  /** Scrolling first moves the pointer to the point to scroll at. */
  method ScrollAt(sandbox: Sandbox, x: Arg, y: Arg, direction: Arg, amount: Arg) returns (r: string)
    modifies sandbox
    ensures sandbox.actions == old(sandbox.actions) + [MoveMouse(x, y), Scroll(direction, amount)]
    ensures r == "Scrolled " + Show(direction) + " by " + Show(amount) + " at (" + Show(x) + ", " + Show(y) + ")"
  {
    sandbox.actions := sandbox.actions + [MoveMouse(x, y)];
    sandbox.actions := sandbox.actions + [Scroll(direction, amount)];
    r := "Scrolled " + Show(direction) + " by " + Show(amount) + " at (" + Show(x) + ", " + Show(y) + ")";
  }

  // ---------------------------------------------------------------- typing

  /** Iteration `i` of the typing loop: write the piece unless empty, then Enter unless it is the last piece. */
  function TypingStep(parts: seq<string>, i: nat): seq<Action>
    requires i < |parts|
  {
    (if parts[i] != "" then [Write(parts[i])] else [])
    + (if i < |parts| - 1 then [Press(Str("Enter"))] else [])
  }

  /** The actions of the iterations from `i` on. */
  function Typing(parts: seq<string>, i: nat): seq<Action>
    requires i <= |parts|
    decreases |parts| - i
  {
    if i == |parts| then [] else TypingStep(parts, i) + Typing(parts, i + 1)
  }

  /** Types a text: each newline becomes an Enter key press. */
  method TypeText(sandbox: Sandbox, text: string) returns (r: string)
    modifies sandbox
    ensures sandbox.actions == old(sandbox.actions) + Typing(Split(text, '\n'), 0)
    ensures r == "Typed: " + text
  {
    var parts := Split(text, '\n');
    var i := 0;
    while i < |parts|
      invariant 0 <= i <= |parts|
      invariant sandbox.actions + Typing(parts, i) == old(sandbox.actions) + Typing(parts, 0)
    {
      var part := parts[i];
      if part != "" {
        sandbox.actions := sandbox.actions + [Write(part)];
      }
      if i < |parts| - 1 {
        sandbox.actions := sandbox.actions + [Press(Str("Enter"))];
      }
      i := i + 1;
    }
    r := "Typed: " + text;
  }

  /** The text a sequence of typing actions produces: written text, and a newline per Enter. */
  function Typed(actions: seq<Action>): string {
    if actions == [] then "" else TypedBy(actions[0]) + Typed(actions[1..])
  }

  /** The text one action produces. */
  function TypedBy(action: Action): string {
    match action
    case Write(t) => t
    case Press(k) => if k == Str("Enter") then "\n" else ""
    case _ => ""
  }

  lemma {:induction false} TypedAppend(a: seq<Action>, b: seq<Action>)
    ensures Typed(a + b) == Typed(a) + Typed(b)
  {
    if a != [] {
      TypedAppend(a[1..], b);
      assert (a + b)[1..] == a[1..] + b;
      assert (a + b)[0] == a[0];
      calc {
        Typed(a + b);
        TypedBy(a[0]) + Typed(a[1..] + b);
        TypedBy(a[0]) + (Typed(a[1..]) + Typed(b));
      }
    } else {
      assert a + b == b;
    }
  }

  /** Counts the Enter presses among the actions. */
  function Enters(actions: seq<Action>): nat {
    if actions == [] then 0
    else (if actions[0] == Press(Str("Enter")) then 1 else 0) + Enters(actions[1..])
  }

  lemma {:induction false} EntersAppend(a: seq<Action>, b: seq<Action>)
    ensures Enters(a + b) == Enters(a) + Enters(b)
  {
    if a != [] {
      EntersAppend(a[1..], b);
      assert (a + b)[1..] == a[1..] + b;
    } else {
      assert a + b == b;
    }
  }

  /** One iteration types its piece, and a newline unless it is the last. */
  lemma StepTyped(parts: seq<string>, i: nat)
    requires i < |parts|
    ensures Typed(TypingStep(parts, i)) == parts[i] + (if i < |parts| - 1 then "\n" else "")
    ensures Enters(TypingStep(parts, i)) == if i < |parts| - 1 then 1 else 0
  {
    var w: seq<Action> := if parts[i] != "" then [Write(parts[i])] else [];
    var e: seq<Action> := if i < |parts| - 1 then [Press(Str("Enter"))] else [];
    assert TypingStep(parts, i) == w + e;
    TypedAppend(w, e);
    EntersAppend(w, e);
    assert Typed(w) == parts[i] by {
      if parts[i] != "" {
        assert Typed(w) == TypedBy(Write(parts[i])) + Typed([]);
      }
    }
    assert Enters(w) == 0;
    if i < |parts| - 1 {
      assert Typed(e) == TypedBy(Press(Str("Enter"))) + Typed([]);
    }
  }

  /** The iterations from `i` on reproduce the pieces from `i` on, joined by newlines. */
  lemma {:induction false} TypingReplays(parts: seq<string>, i: nat)
    requires i < |parts|
    ensures Typed(Typing(parts, i)) == Join(parts[i..], "\n")
    ensures Enters(Typing(parts, i)) == |parts| - 1 - i
    decreases |parts| - i
  {
    var step := TypingStep(parts, i);
    TypedAppend(step, Typing(parts, i + 1));
    EntersAppend(step, Typing(parts, i + 1));
    StepTyped(parts, i);
    if i < |parts| - 1 {
      TypingReplays(parts, i + 1);
      assert parts[i..][1..] == parts[i + 1..];
    } else {
      assert parts[i..] == [parts[i]];
    }
  }

  /**
   * Typing a text performs, in order, what reproduces the text exactly, with
   * as many Enter presses as the text has newlines.
   */
  lemma TypeTextFaithful(text: string)
    ensures Typed(Typing(Split(text, '\n'), 0)) == text
    ensures Enters(Typing(Split(text, '\n'), 0)) == Count(text, '\n')
  {
    var parts := Split(text, '\n');
    TypingReplays(parts, 0);
    assert parts[0..] == parts;
    JoinSplit(text, '\n');
    SplitCount(text, '\n');
  }

  /** No written piece is empty or holds a newline. */
  lemma {:induction false} TypingWritesPieces(parts: seq<string>, i: nat)
    requires i <= |parts|
    requires forall k :: 0 <= k < |parts| ==> '\n' !in parts[k]
    ensures forall a :: a in Typing(parts, i) && a.Write? ==> a.text != "" && '\n' !in a.text
    decreases |parts| - i
  {
    if i < |parts| {
      TypingWritesPieces(parts, i + 1);
    }
  }

  /** Typing a text writes only non-empty pieces without newlines. */
  lemma TypeTextWritesLines(text: string)
    ensures forall a :: a in Typing(Split(text, '\n'), 0) && a.Write? ==> a.text != "" && '\n' !in a.text
  {
    SplitPiecesFree(text, '\n');
    TypingWritesPieces(Split(text, '\n'), 0);
  }

  // ---------------------------------------------------------------- dispatch

  /** One declared parameter of a tool function, and its default when it has one. */
  datatype Param = Param(name: string, default: Option<Arg>)

  /** `TOOL_FUNCTIONS`: the tools callable by name, with their Python signatures. */
  function ToolFunctions(): map<string, seq<Param>> {
    map[
      "click" := [Param("x", None), Param("y", None)],
      "double_click" := [Param("x", None), Param("y", None)],
      "type_text" := [Param("text", None)],
      "press_key" := [Param("key", None)],
      "move_mouse" := [Param("x", None), Param("y", None)],
      "scroll" := [Param("x", None), Param("y", None), Param("direction", Some(Str("down"))), Param("amount", Some(Int(3)))]
    ]
  }

  /** One entry of `TOOL_SCHEMAS`: the tool name, its declared properties and the required ones. */
  datatype Schema = Schema(name: string, properties: seq<string>, required: seq<string>)

  function ToolSchemas(): seq<Schema> {
    [
      Schema("click", ["x", "y"], ["x", "y"]),
      Schema("double_click", ["x", "y"], ["x", "y"]),
      Schema("type_text", ["text"], ["text"]),
      Schema("press_key", ["key"], ["key"]),
      Schema("move_mouse", ["x", "y"], ["x", "y"]),
      Schema("scroll", ["x", "y", "direction", "amount"], ["x", "y", "direction"]),
      Schema("done", ["summary"], ["summary"])
    ]
  }

  /** Whether `f(**args)` binds: every keyword names a parameter and every parameter without a default is given. */
  predicate Binds(params: seq<Param>, args: map<string, Arg>) {
    && (forall k :: k in args ==> exists p :: p in params && p.name == k)
    && (forall p :: p in params && p.default.None? ==> p.name in args)
  }

  /** The default of the first parameter with the given name, if it has one. */
  function DefaultOf(params: seq<Param>, name: string): Option<Arg> {
    if params == [] then None
    else if params[0].name == name then params[0].default
    else DefaultOf(params[1..], name)
  }

  /** The bound value of a parameter: the argument, or its default. */
  function Bound(params: seq<Param>, args: map<string, Arg>, name: string): Arg {
    if name in args then args[name]
    else if DefaultOf(params, name).Some? then DefaultOf(params, name).value
    else Str("")
  }

  /** The actions a bound tool call performs. */
  function ToolActions(name: string, args: map<string, Arg>): seq<Action>
    requires name in ToolFunctions() && Binds(ToolFunctions()[name], args)
    requires name == "type_text" ==> args["text"].Str?
  {
    match name
    case "click" => [LeftClick(args["x"], args["y"])]
    case "double_click" => [DoubleClick(args["x"], args["y"])]
    case "type_text" => Typing(Split(args["text"].s, '\n'), 0)
    case "press_key" => [Press(args["key"])]
    case "move_mouse" => [MoveMouse(args["x"], args["y"])]
    case "scroll" =>
      var params := ToolFunctions()["scroll"];
      [MoveMouse(args["x"], args["y"]), Scroll(Bound(params, args, "direction"), Bound(params, args, "amount"))]
  }

  /** The message a bound tool call returns to the agent loop. */
  function ToolMessage(name: string, args: map<string, Arg>): string
    requires name in ToolFunctions() && Binds(ToolFunctions()[name], args)
    requires name == "type_text" ==> args["text"].Str?
  {
    match name
    case "click" => "Clicked at (" + Show(args["x"]) + ", " + Show(args["y"]) + ")"
    case "double_click" => "Double-clicked at (" + Show(args["x"]) + ", " + Show(args["y"]) + ")"
    case "type_text" => "Typed: " + args["text"].s
    case "press_key" => "Pressed: " + Show(args["key"])
    case "move_mouse" => "Moved mouse to (" + Show(args["x"]) + ", " + Show(args["y"]) + ")"
    case "scroll" =>
      var params := ToolFunctions()["scroll"];
      "Scrolled " + Show(Bound(params, args, "direction")) + " by " + Show(Bound(params, args, "amount"))
        + " at (" + Show(args["x"]) + ", " + Show(args["y"]) + ")"
  }

  /**
   * Runs a tool call by name.  `done` returns the summary (or "Task
   * complete") and an unknown name a message, both without touching the
   * sandbox.  A call whose keywords do not bind, or `type_text` on a
   * non-string, raises (`Failure`) before any action.
   */
  method ExecuteTool(sandbox: Sandbox, name: string, args: map<string, Arg>) returns (r: Result<Arg>)
    modifies sandbox
    ensures name == "done" ==>
      r == Success(if "summary" in args then args["summary"] else Str("Task complete"))
    ensures name != "done" && name !in ToolFunctions() ==> r == Success(Str("Unknown tool: " + name))
    ensures r.Failure? <==>
      name in ToolFunctions() && (!Binds(ToolFunctions()[name], args) || (name == "type_text" && !args["text"].Str?))
    ensures r.Failure? || name !in ToolFunctions() ==> sandbox.actions == old(sandbox.actions)
    ensures r.Success? && name in ToolFunctions() ==>
      sandbox.actions == old(sandbox.actions) + ToolActions(name, args) && r.value == Str(ToolMessage(name, args))
  {
    if name == "done" {
      return Success(if "summary" in args then args["summary"] else Str("Task complete"));
    }
    if name !in ToolFunctions() {
      return Success(Str("Unknown tool: " + name));
    }
    if !Binds(ToolFunctions()[name], args) {
      return Failure("TypeError: " + name + "() got unexpected or missing arguments");
    }
    var message := RunBound(sandbox, name, args);
    r := if message.Success? then Success(Str(message.value)) else Failure(message.error);
  }

  /** The call of a tool whose keywords bind: only `type_text` on a non-string still raises. */
  method RunBound(sandbox: Sandbox, name: string, args: map<string, Arg>) returns (r: Result<string>)
    requires name in ToolFunctions() && Binds(ToolFunctions()[name], args)
    modifies sandbox
    ensures r.Failure? <==> name == "type_text" && !args["text"].Str?
    ensures r.Failure? ==> sandbox.actions == old(sandbox.actions)
    ensures r.Success? ==> sandbox.actions == old(sandbox.actions) + ToolActions(name, args)
    ensures r.Success? ==> r.value == ToolMessage(name, args)
  {
    var params := ToolFunctions()[name];
    var message: string;
    match name {
    case "click" => message := Click(sandbox, args["x"], args["y"]);
    case "double_click" => message := DoubleClickAt(sandbox, args["x"], args["y"]);
    case "type_text" =>
      if !args["text"].Str? {
        return Failure("AttributeError: object has no attribute 'split'");
      }
      message := TypeText(sandbox, args["text"].s);
    case "press_key" => message := PressKey(sandbox, args["key"]);
    case "move_mouse" => message := MoveMouseTo(sandbox, args["x"], args["y"]);
    case "scroll" =>
      message := ScrollAt(sandbox, args["x"], args["y"], Bound(params, args, "direction"), Bound(params, args, "amount"));
    }
    return Success(message);
  }

  /** The names in `TOOL_SCHEMAS`, in order. */
  function SchemaNames(): (r: seq<string>)
    ensures |r| == |ToolSchemas()|
    ensures forall i :: 0 <= i < |r| ==> r[i] == ToolSchemas()[i].name
  {
    seq(|ToolSchemas()|, i requires 0 <= i < |ToolSchemas()| => ToolSchemas()[i].name)
  }

  /** Every tool offered to the model is callable by name, and `done` is the only schema without a function. */
  lemma SchemasMatchFunctions()
    ensures forall n :: n in ToolFunctions() <==> n in SchemaNames() && n != "done"
    ensures "done" in SchemaNames()
  {
    assert SchemaNames() == ["click", "double_click", "type_text", "press_key", "move_mouse", "scroll", "done"];
  }

  /**
   * A call that follows its schema (every required property given, no
   * undeclared one) always binds: each schema declares exactly the
   * function's parameters and requires exactly those without a default.
   */
  lemma SchemaCallsBind(i: nat, args: map<string, Arg>)
    requires i < |ToolSchemas()| && ToolSchemas()[i].name != "done"
    requires forall k :: k in args ==> k in ToolSchemas()[i].properties
    requires forall k :: k in ToolSchemas()[i].required ==> k in args
    ensures ToolSchemas()[i].name in ToolFunctions()
    ensures Binds(ToolFunctions()[ToolSchemas()[i].name], args)
  {
    var s := ToolSchemas()[i];
    var params := ToolFunctions()[s.name];
    forall k | k in args ensures exists p :: p in params && p.name == k {
      var j :| 0 <= j < |s.properties| && s.properties[j] == k;
      assert params[j] in params && params[j].name == k;
    }
  }
}
