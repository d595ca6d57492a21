/** JSON values as the benchmark builds them (serde_json's `Value` and the
    BSON documents written with `doc!`), a walk along a path of segments, and
    compact serialisation. */
module Json {
  import opened Wrappers
  import opened Text

  /** Objects list their members in order: the order a document is written
      or inserted in. Lookups go by key (`Get`). */
  datatype Value =
    | Str(s: string)
    | Num(n: int)
    | Arr(items: seq<Value>)
    | Obj(members: seq<Member>)

  datatype Member = Member(key: string, value: Value)

  /** The value of the first member named `key`. */
  function Get(members: seq<Member>, key: string): (r: Option<Value>)
    ensures r.Some? <==> exists i :: 0 <= i < |members| && members[i].key == key
  {
    if members == [] then None
    else if members[0].key == key then Some(members[0].value)
    else Get(members[1..], key)
  }

  /** Follows `path` from `j`: a segment selects the member of that name in an
      object, and, written as a decimal numeral, the element at that index in
      an array. This is the path-array addressing of `#>` and `jsonb_set`,
      with no implicit traversal of arrays. */
  function Navigate(j: Value, path: seq<string>): Option<Value>
    decreases |path|
  {
    if path == [] then Some(j)
    else
      match j
      case Obj(members) =>
        (match Get(members, path[0])
         case Some(child) => Navigate(child, path[1..])
         case None => None)
      case Arr(items) =>
        (match Parse(path[0])
         case Some(i) => if i < |items| then Navigate(items[i], path[1..]) else None
         case None => None)
      case _ => None
  }

  /** `object[key] = x`: replaces the value of the member named `key`, or
      adds the member at the end when there is none. */
  function Put(members: seq<Member>, key: string, x: Value): (r: seq<Member>)
    ensures Get(r, key) == Some(x)
  {
    if members == [] then [Member(key, x)]
    else if members[0].key == key then [Member(key, x)] + members[1..]
    else [members[0]] + Put(members[1..], key, x)
  }

  /** Whether `path` leads from `j` to an object. */
  predicate ObjectAt(j: Value, path: seq<string>) {
    Navigate(j, path).Some? && Navigate(j, path).value.Obj?
  }

  /** `current[key] = x` where `current` is a mutable reference to the object
      that `path` leads to from `j`. */
  function Assign(j: Value, path: seq<string>, key: string, x: Value): Value
    requires ObjectAt(j, path)
    decreases |path|
  {
    if path == [] then Obj(Put(j.members, key, x))
    else
      match j
      case Obj(members) =>
        Obj(Put(members, path[0], Assign(Get(members, path[0]).value, path[1..], key, x)))
      case Arr(items) =>
        var i := Parse(path[0]).value;
        Arr(items[i := Assign(items[i], path[1..], key, x)])
  }

  /** The assigned value is found at the end of the path, under its key. */
  lemma {:induction false} AssignLands(j: Value, path: seq<string>, key: string, x: Value)
    requires ObjectAt(j, path)
    ensures Navigate(Assign(j, path, key, x), path + [key]) == Some(x)
    decreases |path|
  {
    var p := path + [key];
    if path == [] {
      assert p[1..] == [];
    } else {
      assert p[0] == path[0] && p[1..] == path[1..] + [key];
      match j
      case Obj(members) =>
        AssignLands(Get(members, path[0]).value, path[1..], key, x);
      case Arr(items) =>
        AssignLands(items[Parse(path[0]).value], path[1..], key, x);
    }
  }

  /** Compact serialisation, as serde_json's `Display` writes it. Strings are
      written without escaping: every string the benchmark renders consists
      of letters, digits and underscores. */
  function Render(j: Value): string
    decreases j, 1
  {
    match j
    case Str(s) => "\"" + s + "\""
    case Num(n) => if n < 0 then "-" + Show(-n) else Show(n)
    case Arr(items) => "[" + RenderItems(items) + "]"
    case Obj(members) => "{" + RenderMembers(members) + "}"
  }

  /** Array elements, separated by commas. */
  function RenderItems(items: seq<Value>): string
    decreases items, 0
  {
    if items == [] then ""
    else if |items| == 1 then Render(items[0])
    else Render(items[0]) + "," + RenderItems(items[1..])
  }

  /** Object members as `"key":value`, separated by commas. */
  function RenderMembers(members: seq<Member>): string
    decreases members, 0
  {
    if members == [] then ""
    else
      var m := "\"" + members[0].key + "\":" + Render(members[0].value);
      if |members| == 1 then m else m + "," + RenderMembers(members[1..])
  }
}
