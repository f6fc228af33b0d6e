/** The input tree of the JSON-to-XML alignment: the values org.json hands to Json2Xml,
    plus the LinkedList that Json2Xml itself builds to pass straight JSON occurrences on. */
module Json {
  import opened Wrappers
  import opened Strings

  /** Scalar is a JSON string (org.json keeps its text), Arr a JSONArray, Obj a JSONObject
      with its members in iteration order, and Compact the java.util.LinkedList of
      occurrences that processArray builds. */
  datatype Node =
    | Scalar(text: string)
    | Arr(elems: seq<Node>)
    | Obj(members: seq<(string, Node)>)
    | Compact(items: seq<Node>)

  /** JSONObject.names(): the member names, in iteration order. */
  function Keys(members: seq<(string, Node)>): (r: seq<string>)
    ensures |r| == |members|
    ensures forall i :: 0 <= i < |members| ==> r[i] == members[i].0
  {
    seq(|members|, i requires 0 <= i < |members| => members[i].0)
  }

  /** A JSONObject never holds one name twice. */
  predicate UniqueKeys(members: seq<(string, Node)>) {
    forall i, j :: 0 <= i < j < |members| ==> members[i].0 != members[j].0
  }

  /** JSONObject.opt(name): the value stored under `name`, or null. */
  function Opt(members: seq<(string, Node)>, name: string): (r: Option<Node>)
    ensures r.None? <==> name !in Keys(members)
    ensures r.Some? ==> (name, r.value) in members
  {
    if members == [] then None
    else if members[0].0 == name then Some(members[0].1)
    else
      assert Keys(members) == [members[0].0] + Keys(members[1..]);
      Opt(members[1..], name)
  }

  /** Under unique keys the member that holds `name` is the one Opt finds. */
  lemma {:induction false} OptUnique(members: seq<(string, Node)>, i: nat)
    requires UniqueKeys(members) && i < |members|
    ensures Opt(members, members[i].0) == Some(members[i].1)
  {
    if i > 0 {
      assert UniqueKeys(members[1..]);
      OptUnique(members[1..], i - 1);
    }
  }

  /** JSONObject.quote for the two characters that always need an escape; the short
      escapes \b \t \n \f \r, the escaped slash after '<' and the \uXXXX escapes of control
      characters are not modelled. */
  function Escape(s: string): string {
    if s == [] then []
    else (if s[0] == '"' || s[0] == '\\' then ['\\', s[0]] else [s[0]]) + Escape(s[1..])
  }

  function Quote(s: string): string {
    "\"" + Escape(s) + "\""
  }

  /** The JSON text org.json writes for a value nested inside an array or object. A
      LinkedList met there is written as a JSONArray, as JSONObject.valueToString does. */
  function JsonText(n: Node): string
    decreases n
  {
    match n
    case Scalar(t) => Quote(t)
    case Arr(es) => "[" + Join(seq(|es|, i requires 0 <= i < |es| => JsonText(es[i])), ",") + "]"
    case Compact(es) => "[" + Join(seq(|es|, i requires 0 <= i < |es| => JsonText(es[i])), ",") + "]"
    case Obj(ms) =>
      "{" + Join(seq(|ms|, i requires 0 <= i < |ms| => Quote(ms[i].0) + ":" + JsonText(ms[i].1)), ",") + "}"
  }

  /** Object.toString of a node: a String is its own text, JSONArray and JSONObject write
      JSON, and a LinkedList writes "[a, b]" from its elements' toString. */
  function ToString(n: Node): string
    decreases n
  {
    match n
    case Scalar(t) => t
    case Arr(_) => JsonText(n)
    case Obj(_) => JsonText(n)
    case Compact(es) => "[" + Join(seq(|es|, i requires 0 <= i < |es| => ToString(es[i])), ", ") + "]"
  }
}
