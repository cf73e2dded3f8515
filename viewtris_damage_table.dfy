/**
 * viewtris' damage table: an attack is looked up first among the fully specific keys, then
 * in an ordered list of patterns whose unset fields match anything, where the first
 * matching pattern wins. The piece type stands in for viewtris' tetromino module, which is
 * not part of this model.
 */
module ViewtrisDamageTable {

  import opened Tables
  import BsrTetromino

  /** A pattern of attacks: a `None` field matches any value. */
  datatype Attack = Attack(
    combo: Option<int>, b2b: Option<int>, piece: Option<BsrTetromino.MinoVariant>,
    lines: Option<int>, spin: Option<bool>)

  /** A fully described attack. */
  datatype AttackKey = AttackKey(
    combo: int, b2b: int, piece: BsrTetromino.MinoVariant, lines: int, spin: bool)

  /** `field.map(|f| f == value).unwrap_or(true)`. */
  predicate FieldMatches<T(==)>(field: Option<T>, value: T)
  {
    match field
    case None => true
    case Some(f) => f == value
  }

  /** `Attack::matches`: a pattern with every field set matches its own key and no other. */
  predicate Matches(a: Attack, key: AttackKey)
    ensures a.combo.Some? && a.b2b.Some? && a.piece.Some? && a.lines.Some? && a.spin.Some? ==>
      (Matches(a, key) <==>
        key == AttackKey(a.combo.value, a.b2b.value, a.piece.value, a.lines.value, a.spin.value))
  {
    && FieldMatches(a.combo, key.combo)
    && FieldMatches(a.b2b, key.b2b)
    && FieldMatches(a.piece, key.piece)
    && FieldMatches(a.lines, key.lines)
    && FieldMatches(a.spin, key.spin)
  }

  /** A pattern matches a key exactly when each of its set fields equals the key's. */
  lemma MatchesIff(a: Attack, key: AttackKey)
    ensures Matches(a, key) <==>
      && (a.combo.Some? ==> a.combo.value == key.combo)
      && (a.b2b.Some? ==> a.b2b.value == key.b2b)
      && (a.piece.Some? ==> a.piece.value == key.piece)
      && (a.lines.Some? ==> a.lines.value == key.lines)
      && (a.spin.Some? ==> a.spin.value == key.spin)
  {
  }

  /** The pattern with no field set matches every attack. */
  lemma WildcardMatches(key: AttackKey)
    ensures Matches(Attack(None, None, None, None, None), key)
  {
  }

  datatype DamageTable = DamageTable(general: seq<(Attack, int)>, specific: map<AttackKey, int>)

  /** `find_map` over the patterns: the output of the first one that matches. */
  function FindMap(general: seq<(Attack, int)>, key: AttackKey): (r: Option<int>)
    ensures r.Some? ==> exists i :: 0 <= i < |general| && Matches(general[i].0, key) && general[i].1 == r.value
  {
    if general == [] then None
    else if Matches(general[0].0, key) then Some(general[0].1)
    else
      var rest := FindMap(general[1..], key);
      assert rest.Some? ==> exists i :: 0 < i < |general| && general[i] == general[1..][i - 1] && Matches(general[i].0, key) && general[i].1 == rest.value;
      rest
  }

  /** The first matching pattern decides; later matches are ignored. */
  lemma {:induction false} FindMapFirst(general: seq<(Attack, int)>, key: AttackKey, i: int)
    requires 0 <= i < |general| && Matches(general[i].0, key)
    requires forall j :: 0 <= j < i ==> !Matches(general[j].0, key)
    ensures FindMap(general, key) == Some(general[i].1)
  {
    if i > 0 {
      FindMapFirst(general[1..], key, i - 1);
    }
  }

  /** Nothing is found exactly when no pattern matches. */
  lemma {:induction false} FindMapNone(general: seq<(Attack, int)>, key: AttackKey)
    ensures FindMap(general, key).None? <==> forall j :: 0 <= j < |general| ==> !Matches(general[j].0, key)
  {
    if general != [] {
      FindMapNone(general[1..], key);
      assert forall j :: 1 <= j < |general| ==> general[j] == general[1..][j - 1];
    }
  }

  /** `Option::or`. */
  function Or<T>(a: Option<T>, b: Option<T>): (r: Option<T>)
    ensures a.Some? ==> r == a
    ensures a.None? ==> r == b
  {
    if a.Some? then a else b
  }

  /**
   * `DamageTable::get_uncopied` (and `get`, which copies the value out): a specific entry
   * decides; otherwise any damage found is that of a pattern matching the key.
   */
  function Get(t: DamageTable, key: AttackKey): (r: Option<int>)
    ensures key in t.specific ==> r == Some(t.specific[key])
    ensures key !in t.specific && r.Some? ==>
      exists i :: 0 <= i < |t.general| && Matches(t.general[i].0, key) && t.general[i].1 == r.value
  {
    Or(Tables.Get(t.specific, key), FindMap(t.general, key))
  }

  /** A specific entry wins over every pattern. */
  lemma SpecificWins(t: DamageTable, key: AttackKey)
    requires key in t.specific
    ensures Get(t, key) == Some(t.specific[key])
  {
  }

  /** Without a specific entry, the first matching pattern gives the damage. */
  lemma GeneralFirstMatch(t: DamageTable, key: AttackKey, i: int)
    requires key !in t.specific
    requires 0 <= i < |t.general| && Matches(t.general[i].0, key)
    requires forall j :: 0 <= j < i ==> !Matches(t.general[j].0, key)
    ensures Get(t, key) == Some(t.general[i].1)
  {
    FindMapFirst(t.general, key, i);
  }

  /** The lookup fails exactly when there is no specific entry and no pattern matches. */
  lemma GetNone(t: DamageTable, key: AttackKey)
    ensures Get(t, key).None? <==>
      key !in t.specific && forall j :: 0 <= j < |t.general| ==> !Matches(t.general[j].0, key)
  {
    FindMapNone(t.general, key);
  }

  /** `Index for DamageTable`: the value of `get`; the `unwrap` panics when it is absent. */
  function Index(t: DamageTable, key: AttackKey): (r: int)
    requires Get(t, key).Some?
    ensures Get(t, key) == Some(r)
  {
    Get(t, key).value
  }
}
