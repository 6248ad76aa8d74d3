/** The slice of JavaScript's value model that the task engine and its tasks
    touch: truthiness, property reads on plain objects, conversion to string
    and Array.prototype.join. */
module Js {

  datatype Option<T> = None | Some(value: T)

  /** A JavaScript value. Objects are plain property maps; an Error instance
      keeps its constructor name and its message. Numbers are integers only. */
  datatype Value =
    | Undefined
    | Null
    | Bool(b: bool)
    | Num(n: int)
    | Str(s: string)
    | Arr(items: seq<Value>)
    | Obj(props: map<string, Value>)
    | Error(name: string, message: string)

  /** ToBoolean: the values an `if` treats as true. */
  predicate Truthy(v: Value) {
    match v
    case Undefined => false
    case Null => false
    case Bool(b) => b
    case Num(n) => n != 0
    case Str(s) => s != ""
    case _ => true
  }

  /** Reading property `key` of a value that is neither null nor undefined:
      only plain objects carry named properties here. */
  function Prop(v: Value, key: string): Value {
    if v.Obj? && key in v.props then v.props[key] else Undefined
  }

  /** The TypeError the runtime throws for an impossible property access or call. */
  function TypeError(message: string): Value {
    Error("TypeError", message)
  }

  function DigitChar(d: nat): char
    requires d < 10
  {
    "0123456789"[d]
  }

  function Digits(n: nat): string
    decreases n
  {
    if n < 10 then [DigitChar(n)] else Digits(n / 10) + [DigitChar(n % 10)]
  }

  /** ToString: the string a value converts to (String(v), `'' + v`). */
  function ToString(v: Value): string
    decreases v, 1
  {
    match v
    case Undefined => "undefined"
    case Null => "null"
    case Bool(b) => if b then "true" else "false"
    case Num(n) => if n < 0 then "-" + Digits(-n) else Digits(n)
    case Str(s) => s
    case Arr(items) => JoinWith(items, ",")
    case Obj(_) => "[object Object]"
    case Error(name, message) => if message == "" then name else name + ": " + message
  }

  /** How Array.prototype.join writes one element: null and undefined as "". */
  function ElementString(v: Value): string
    decreases v, 2
  {
    if v.Undefined? || v.Null? then "" else ToString(v)
  }

  /** Array.prototype.join(sep) with `sep` already converted to a string. */
  function JoinWith(items: seq<Value>, sep: string): string
    decreases items, 0
  {
    if items == [] then ""
    else if |items| == 1 then ElementString(items[0])
    else JoinWith(items[..|items| - 1], sep) + sep + ElementString(items[|items| - 1])
  }

  /** The separator `join` uses for its argument: "," when it is undefined. */
  function Separator(sep: Value): string {
    if sep.Undefined? then "," else ToString(sep)
  }

  /** The strings of `items` laid end to end with `sep` between neighbours. */
  function Interleave(items: seq<string>, sep: string): string {
    if items == [] then ""
    else if |items| == 1 then items[0]
    else items[0] + sep + Interleave(items[1..], sep)
  }

  function Strings(items: seq<string>): seq<Value> {
    seq(|items|, i requires 0 <= i < |items| => Str(items[i]))
  }

  lemma {:induction false} InterleaveAppend(items: seq<string>, x: string, sep: string)
    requires items != []
    ensures Interleave(items + [x], sep) == Interleave(items, sep) + sep + x
    decreases |items|
  {
    if |items| == 1 {
      assert items + [x] == [items[0], x];
    } else {
      assert (items + [x])[1..] == items[1..] + [x];
      InterleaveAppend(items[1..], x, sep);
    }
  }

  /** Joining string values is laying the strings end to end with the
      separator between neighbours, in their order. */
  lemma {:induction false} JoinStrings(items: seq<string>, sep: string)
    ensures JoinWith(Strings(items), sep) == Interleave(items, sep)
    decreases |items|
  {
    if |items| == 1 {
      assert Strings(items) == [Str(items[0])];
      assert ElementString(Str(items[0])) == items[0];
    } else if |items| > 1 {
      var init := items[..|items| - 1];
      assert Strings(items)[..|items| - 1] == Strings(init);
      assert Strings(items)[|items| - 1] == Str(items[|items| - 1]);
      JoinStrings(init, sep);
      assert ElementString(Str(items[|items| - 1])) == items[|items| - 1];
      assert JoinWith(Strings(items), sep) == JoinWith(Strings(init), sep) + sep + items[|items| - 1];
      assert items == init + [items[|items| - 1]];
      InterleaveAppend(init, items[|items| - 1], sep);
    }
  }
}
