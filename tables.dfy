/** Translation tables and the dot-path lookup that `translate` performs
    on them. */
module Tables {
  import opened Strings

  datatype Option<+T> = None | Some(value: T)

  /** A value of a parsed translation file: a string or a nested object. */
  datatype Node = Leaf(text: string) | Table(entries: map<string, Node>)

  /** JavaScript truthiness of a value: objects always, strings unless empty. */
  predicate Truthy(n: Node)
    ensures Truthy(n) <==> n != Leaf("")
  {
    n.Table? || n.text != ""
  }

  /** Property access `n[seg]` that is not `undefined`. */
  function Child(n: Node, seg: string): (c: Option<Node>)
    ensures c.Some? <==> n.Table? && seg in n.entries
    ensures c.Some? ==> c.value == n.entries[seg]
  {
    match n
    case Table(entries) => if seg in entries then Some(entries[seg]) else None
    case Leaf(_) => None
  }

  /** Optional chaining `o?.[seg]`: undefined stays undefined. */
  function Member(o: Option<Node>, seg: string): (c: Option<Node>)
    ensures o.None? ==> c.None?
    ensures o.Some? ==> c == Child(o.value, seg)
  {
    if o.Some? then Child(o.value, seg) else None
  }

  /** The cursor walk of `translate`: each segment steps from a truthy node
      into its entry; None stands for the walk giving up. */
  function Resolve(cursor: Option<Node>, path: seq<string>): (r: Option<Node>)
    ensures path == [] ==> r == cursor
    ensures path != [] && r.Some? ==> cursor.Some? && cursor.value.Table? && path[0] in cursor.value.entries
    decreases |path|
  {
    if path == [] then cursor
    else if cursor.Some? && Truthy(cursor.value) && Child(cursor.value, path[0]).Some? then
      Resolve(Child(cursor.value, path[0]), path[1..])
    else None
  }

  /** What `translate(key)` returns for the table of the current language
      (None when that table is null or undefined): the node at the end of
      the dot path, or the key itself when the walk gives up. */
  function Lookup(table: Option<Node>, key: string): (r: Node)
    ensures r != Leaf(key) ==> table.Some? && table.value.Table?
  {
    match Resolve(table, Split(key, '.'))
    case Some(n) => n
    case None => Leaf(key)
  }

  /** `String(n)`, as an assignment to `innerText` or `setAttribute` does it. */
  function ToText(n: Node): (s: string)
    ensures n.Leaf? ==> s == n.text
    ensures n.Table? ==> s == "[object Object]"
    ensures s != "" <==> Truthy(n)
  {
    match n
    case Leaf(s) => s
    case Table(_) => "[object Object]"
  }

  /** The loop of `translate`: a cursor that starts at the table and steps
      one segment at a time, returning the key as soon as a step fails. */
  method Walk(table: Option<Node>, key: string) returns (r: Node)
    ensures r == Lookup(table, key)
  {
    var path := Split(key, '.');
    var translation := table;
    var i := 0;
    while i < |path|
      invariant 0 <= i <= |path|
      invariant Resolve(table, path) == Resolve(translation, path[i..])
      invariant i > 0 ==> translation.Some?
    {
      var segment := path[i];
      assert path[i..][0] == segment && path[i..][1..] == path[i + 1..];
      if translation.Some? && Truthy(translation.value) && Child(translation.value, segment).Some? {
        translation := Child(translation.value, segment);
      } else {
        return Leaf(key);
      }
      i := i + 1;
    }
    return translation.value;
  }

  /** Without a table every key comes back unchanged. */
  lemma {:induction false} LookupWithoutTable(key: string)
    ensures Lookup(None, key) == Leaf(key)
  {
    var path := Split(key, '.');
    assert path != [];
  }

  /** Looking up the dot-joined form of a path whose segments hold no dot
      walks exactly that path: the node there, or the key on a miss. */
  lemma LookupPath(table: Option<Node>, path: seq<string>)
    requires |path| >= 1
    requires forall i :: 0 <= i < |path| ==> '.' !in path[i]
    ensures Resolve(table, path).Some? ==> Lookup(table, Join(path, '.')) == Resolve(table, path).value
    ensures Resolve(table, path).None? ==> Lookup(table, Join(path, '.')) == Leaf(Join(path, '.'))
  {
    SplitOfJoin(path, '.');
  }

  /** A two-segment key `outer.inner` reaches the entry `inner` of the entry
      `outer` of an object table. */
  lemma LookupTwoLevels(entries: map<string, Node>, outer: string, inner: string)
    requires '.' !in outer && '.' !in inner
    requires outer in entries && entries[outer].Table? && inner in entries[outer].entries
    ensures Lookup(Some(Table(entries)), outer + "." + inner) == entries[outer].entries[inner]
  {
    var path := [outer, inner];
    assert Join(path, '.') == outer + "." + inner;
    var mid := entries[outer];
    assert path[1..] == [inner] && [inner][1..] == [];
    assert Resolve(Some(mid), [inner]) == Some(mid.entries[inner]);
    LookupPath(Some(Table(entries)), path);
  }

  /** A one-segment key reaches an entry of an object table, whatever that
      entry holds (a nested object is returned whole). */
  lemma LookupOneLevel(entries: map<string, Node>, key: string)
    requires '.' !in key && key in entries
    ensures Lookup(Some(Table(entries)), key) == entries[key]
  {
    assert Join([key], '.') == key;
    assert [key][1..] == [];
    assert Resolve(Some(Table(entries)), [key]) == Resolve(Some(entries[key]), []);
    LookupPath(Some(Table(entries)), [key]);
  }

  /** A two-segment key whose inner segment is missing comes back unchanged. */
  lemma LookupTwoLevelsMissing(entries: map<string, Node>, outer: string, inner: string)
    requires '.' !in outer && '.' !in inner
    requires outer in entries && Child(entries[outer], inner) == None
    ensures Lookup(Some(Table(entries)), outer + "." + inner) == Leaf(outer + "." + inner)
  {
    var path := [outer, inner];
    assert Join(path, '.') == outer + "." + inner;
    assert path[1..] == [inner];
    LookupPath(Some(Table(entries)), path);
  }
}
