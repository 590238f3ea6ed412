/**
 * Types shared by the detector variants: the three-step protection level
 * (an `IntEnum` with values 1, 2, 3 in every variant), an optional value,
 * and the ordered category table.  Python dictionaries iterate in insertion
 * order, so a `Dict[str, List[str]]` is modelled as a sequence of entries.
 */
module Common {

  datatype Option<T> = None | Some(value: T)

  /** STANDARD < ENHANCED < CRISIS. */
  datatype ProtectionLevel = Standard | Enhanced | Crisis {
    /** The enum's integer value. */
    function Value(): (v: int)
      ensures 1 <= v <= 3
    {
      match this
      case Standard => 1
      case Enhanced => 2
      case Crisis => 3
    }

    /** `self >= other` on the `IntEnum`. */
    predicate AtLeast(other: ProtectionLevel) {
      Value() >= other.Value()
    }

    /** The enum member's name, as reported in metadata. */
    function Name(): string {
      match this
      case Standard => "STANDARD"
      case Enhanced => "ENHANCED"
      case Crisis => "CRISIS"
    }
  }

  /** Python's `max(a, b)` on the `IntEnum`. */
  function MaxLevel(a: ProtectionLevel, b: ProtectionLevel): (m: ProtectionLevel)
    ensures m.AtLeast(a) && m.AtLeast(b)
    ensures m == a || m == b
  {
    if a.AtLeast(b) then a else b
  }

  /** One `key: [values]` item of an insertion-ordered dictionary. */
  datatype Entry = Entry(key: string, values: seq<string>)

  type Table = seq<Entry>

  /** The keys, in insertion order. */
  function Keys(t: Table): (ks: seq<string>)
    ensures |ks| == |t| && forall i | 0 <= i < |t| :: ks[i] == t[i].key
  {
    seq(|t|, i requires 0 <= i < |t| => t[i].key)
  }

  /** `t.get(key, [])` for a table whose keys are distinct: the first entry wins. */
  function Get(t: Table, key: string): (vs: seq<string>)
    ensures (forall i | 0 <= i < |t| :: t[i].key != key) ==> vs == []
    ensures vs != [] ==> exists i | 0 <= i < |t| :: t[i].key == key && t[i].values == vs
    ensures forall i | 0 <= i < |t| && t[i].key == key && (forall j | 0 <= j < i :: t[j].key != key) ::
      vs == t[i].values
  {
    if t == [] then []
    else if t[0].key == key then t[0].values
    else
      var rest := Get(t[1..], key);
      assert forall i | 1 <= i < |t| :: t[1..][i - 1] == t[i];
      rest
  }

  /** With distinct keys, looking a key up gives its own entry's values. */
  lemma GetDistinctKey(t: Table, i: nat)
    requires i < |t| && Distinct(Keys(t))
    ensures Get(t, t[i].key) == t[i].values
  {
    assert forall j | 0 <= j < i :: Keys(t)[j] != Keys(t)[i];
  }

  /** `sum(len(v) for v in t.values())`. */
  function TotalLength(t: Table): nat
  {
    if t == [] then 0 else TotalLength(t[..|t| - 1]) + |t[|t| - 1].values|
  }

  /** No element occurs twice. */
  predicate Distinct(s: seq<string>) {
    forall i, j | 0 <= i < j < |s| :: s[i] != s[j]
  }

  /** The elements of a list, as a set. */
  function ToSet(s: seq<string>): (r: set<string>)
    ensures forall p :: p in r <==> p in s
  {
    set i | 0 <= i < |s| :: s[i]
  }

  /** Every value listed under any key, as a set. */
  function AllValues(t: Table): set<string>
  {
    if t == [] then {} else AllValues(t[..|t| - 1]) + ToSet(t[|t| - 1].values)
  }

  /** The keys whose value lists are non-empty. */
  function NonEmptyKeys(t: Table): set<string>
  {
    set i | 0 <= i < |t| && t[i].values != [] :: t[i].key
  }

  /** `list(some_set)`: the elements once each, in an order the model leaves open. */
  method SetToList(s: set<string>) returns (xs: seq<string>)
    ensures Distinct(xs) && ToSet(xs) == s
  {
    xs := [];
    var rest := s;
    while rest != {}
      invariant Distinct(xs)
      invariant forall x :: x in s <==> x in rest || x in xs
      invariant forall x | x in rest :: x !in xs
      decreases |rest|
    {
      var x :| x in rest;
      xs := xs + [x];
      rest := rest - {x};
    }
  }
}
