/** The backend-agnostic drawing instruction that the recorder stores. */
module Commands {
  import opened PyValues

  /**
   * One drawing instruction. `data` holds the coordinates, `style` the
   * backend-agnostic style keys, `metadata` one tooltip dict per object,
   * `zorder` the layer (higher on top) and `gid` the element group.
   */
  datatype DrawingCommand = DrawingCommand(
    kind: string,
    data: map<string, Value>,
    style: map<string, Value>,
    metadata: seq<Value>,
    zorder: int,
    gid: string)

  /** The kinds the command documents; the recorder also produces "info_table". */
  const DocumentedKinds: set<string> :=
    {"scatter", "line", "polygon", "text", "line_collection", "gradient"}

  /** A command given only its kind: empty data, style and metadata, layer 0, no group. */
  function NewCommand(kind: string): (c: DrawingCommand)
    ensures c.kind == kind
    ensures c.data == map[] && c.style == map[] && c.metadata == []
    ensures c.zorder == 0 && c.gid == ""
  {
    DrawingCommand(kind, map[], map[], [], 0, "")
  }

  /** Two commands are equal exactly when all six fields are (dataclass equality). */
  lemma CommandEquality(a: DrawingCommand, b: DrawingCommand)
    ensures a == b <==>
      a.kind == b.kind && a.data == b.data && a.style == b.style &&
      a.metadata == b.metadata && a.zorder == b.zorder && a.gid == b.gid
  {
  }

  /**
   * `commands.remove(c)` with the ValueError swallowed: drops the first
   * element EQUAL to `c` (dataclass equality, not identity), or nothing.
   */
  function RemoveFirst<T(==)>(s: seq<T>, c: T): seq<T>
  {
    if s == [] then []
    else if s[0] == c then s[1..]
    else [s[0]] + RemoveFirst(s[1..], c)
  }

  /** The position of the first element equal to `c`. */
  function FirstIndexOf<T(==)>(s: seq<T>, c: T): (i: nat)
    requires c in s
    ensures i < |s| && s[i] == c && c !in s[..i]
  {
    if s[0] == c then 0 else FirstIndexOf(s[1..], c) + 1
  }

  /** Removing an absent element leaves the log unchanged. */
  lemma {:induction false} RemoveAbsent<T>(s: seq<T>, c: T)
    requires c !in s
    ensures RemoveFirst(s, c) == s
  {
    if s != [] {
      RemoveAbsent(s[1..], c);
    }
  }

  /** Removal takes out exactly the first equal element and keeps the rest in order. */
  lemma {:induction false} RemoveFirstAt<T>(s: seq<T>, c: T)
    requires c in s
    ensures RemoveFirst(s, c) == s[..FirstIndexOf(s, c)] + s[FirstIndexOf(s, c) + 1..]
  {
    if s[0] != c {
      RemoveFirstAt(s[1..], c);
      var j := FirstIndexOf(s[1..], c);
      assert s[..j + 1] == [s[0]] + s[1..][..j];
      assert s[j + 2..] == s[1..][j + 1..];
    }
  }

  /** Exactly one copy of `c` goes, if there is one. */
  lemma {:induction false} RemoveFirstMultiset<T>(s: seq<T>, c: T)
    ensures multiset(RemoveFirst(s, c)) == multiset(s) - multiset{c}
  {
    if s != [] {
      assert s == [s[0]] + s[1..];
      if s[0] != c {
        RemoveFirstMultiset(s[1..], c);
      }
    }
  }

  /**
   * Because removal goes by equality, removing the same command twice from a
   * log holding two equal copies empties it: the second call is not a no-op.
   */
  lemma RemoveTwiceTakesEqualCopy(c: DrawingCommand)
    ensures RemoveFirst([c, c], c) == [c]
    ensures RemoveFirst(RemoveFirst([c, c], c), c) == []
  {
  }
}
