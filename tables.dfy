/**
 * Dictionaries filled by a loop over button slots, nine keys per slot, as the
 * settings generators build them: what a key holds, which keys there are, and
 * how many.
 */
module Tables {
  /** The nine per-button settings. */
  datatype Field = Enabled | Label | Url | Method | Auth | Token | Payload | Headers | Color

  /**
   * The fields in the order the ID and default loops write them. Both lists are
   * spelled as concatenations so that the folds below unfold over them on demand
   * rather than all at once.
   */
  const Fields: seq<Field> := [Enabled, Label, Url, Method] + [Auth, Token, Payload, Headers, Color]

  /** The fields in the order the settings-schema loop writes them. */
  const SchemaFields: seq<Field> := [Enabled, Label, Url, Color] + [Method, Auth, Token, Payload, Headers]

  predicate NoDuplicates(fs: seq<Field>) {
    forall a, b :: 0 <= a < b < |fs| ==> fs[a] != fs[b]
  }

  /** A key scheme that never gives two one-digit slots, or two fields, the same key. */
  ghost predicate Injective(key: (nat, Field) -> string) {
    forall i, f, j, g :: 1 <= i <= 9 && 1 <= j <= 9 && key(i, f) == key(j, g) ==> i == j && f == g
  }

  /** No key of the scheme is already among the table's initial keys. */
  ghost predicate Apart<V>(base: map<string, V>, key: (nat, Field) -> string) {
    forall i, f :: 1 <= i <= 9 ==> key(i, f) !in base
  }

  /** The entries of slot `i` for the fields `fs`, added one after another. */
  function Row<V>(m: map<string, V>, i: nat, fs: seq<Field>, key: (nat, Field) -> string, val: (nat, Field) -> V): map<string, V>
    decreases |fs|
  {
    if fs == [] then m else Row(m[key(i, fs[0]) := val(i, fs[0])], i, fs[1..], key, val)
  }

  /** The dictionary a `for (let i = 1; i <= n; i++)` loop of rows builds from `base`. */
  function Table<V>(n: nat, base: map<string, V>, fs: seq<Field>, key: (nat, Field) -> string, val: (nat, Field) -> V): map<string, V> {
    if n == 0 then base else Row(Table(n - 1, base, fs, key, val), n, fs, key, val)
  }

  /** A row of all nine fields is the nine assignments written out in the loop body. */
  lemma RowUnrolled<V>(m: map<string, V>, i: nat, key: (nat, Field) -> string, val: (nat, Field) -> V)
    ensures Row(m, i, Fields, key, val) ==
     m[key(i, Enabled) := val(i, Enabled)]
      [key(i, Label) := val(i, Label)]
      [key(i, Url) := val(i, Url)]
      [key(i, Method) := val(i, Method)]
      [key(i, Auth) := val(i, Auth)]
      [key(i, Token) := val(i, Token)]
      [key(i, Payload) := val(i, Payload)]
      [key(i, Headers) := val(i, Headers)]
      [key(i, Color) := val(i, Color)]
  {
    var fs := [Enabled, Label, Url, Method, Auth, Token, Payload, Headers, Color];
    assert Fields == fs;
    assert fs[1..][1..][1..][1..][1..][1..][1..][1..][1..] == [];
  }

  /** A row of the schema's nine fields is its nine assignments, in the schema's order. */
  lemma SchemaRowUnrolled<V>(m: map<string, V>, i: nat, key: (nat, Field) -> string, val: (nat, Field) -> V)
    ensures Row(m, i, SchemaFields, key, val) ==
     m[key(i, Enabled) := val(i, Enabled)]
      [key(i, Label) := val(i, Label)]
      [key(i, Url) := val(i, Url)]
      [key(i, Color) := val(i, Color)]
      [key(i, Method) := val(i, Method)]
      [key(i, Auth) := val(i, Auth)]
      [key(i, Token) := val(i, Token)]
      [key(i, Payload) := val(i, Payload)]
      [key(i, Headers) := val(i, Headers)]
  {
    var fs := [Enabled, Label, Url, Color, Method, Auth, Token, Payload, Headers];
    assert SchemaFields == fs;
    assert fs[1..][1..][1..][1..][1..][1..][1..][1..][1..] == [];
  }

  /** A row leaves every key it does not write as it was. */
  lemma {:induction false} RowOther<V>(m: map<string, V>, i: nat, fs: seq<Field>, key: (nat, Field) -> string, val: (nat, Field) -> V, k: string)
    requires forall f :: f in fs ==> k != key(i, f)
    ensures k in Row(m, i, fs, key, val) <==> k in m
    ensures k in m ==> Row(m, i, fs, key, val)[k] == m[k]
    decreases |fs|
  {
    if fs != [] {
      assert fs[0] in fs;
      assert forall f :: f in fs[1..] ==> f in fs;
      RowOther(m[key(i, fs[0]) := val(i, fs[0])], i, fs[1..], key, val, k);
    }
  }

  /** A row's own keys hold its values. */
  lemma {:induction false} RowOwn<V>(m: map<string, V>, i: nat, fs: seq<Field>, key: (nat, Field) -> string, val: (nat, Field) -> V, f: Field)
    requires 1 <= i <= 9 && Injective(key) && NoDuplicates(fs) && f in fs
    ensures key(i, f) in Row(m, i, fs, key, val) && Row(m, i, fs, key, val)[key(i, f)] == val(i, f)
    decreases |fs|
  {
    var m' := m[key(i, fs[0]) := val(i, fs[0])];
    if fs[0] == f {
      forall g | g in fs[1..] ensures key(i, f) != key(i, g) {
        var b :| 0 <= b < |fs[1..]| && fs[1..][b] == g;
        assert fs[b + 1] == g;
      }
      RowOther(m', i, fs[1..], key, val, key(i, f));
    } else {
      assert f in fs[1..];
      RowOwn(m', i, fs[1..], key, val, f);
    }
  }

  /** A row of fresh keys for distinct fields adds one entry per field. */
  lemma {:induction false} RowSize<V>(m: map<string, V>, i: nat, fs: seq<Field>, key: (nat, Field) -> string, val: (nat, Field) -> V)
    requires 1 <= i <= 9 && Injective(key) && NoDuplicates(fs)
    requires forall f :: f in fs ==> key(i, f) !in m
    ensures |Row(m, i, fs, key, val)| == |m| + |fs|
    decreases |fs|
  {
    if fs != [] {
      var m' := m[key(i, fs[0]) := val(i, fs[0])];
      assert fs[0] in fs;
      forall f | f in fs[1..] ensures key(i, f) !in m' {
        var b :| 0 <= b < |fs[1..]| && fs[1..][b] == f;
        assert fs[b + 1] == f && f in fs;
      }
      RowSize(m', i, fs[1..], key, val);
    }
  }

  /** Every slot's keys hold that slot's values. */
  lemma {:induction false} TableLookup<V>(n: nat, base: map<string, V>, fs: seq<Field>, key: (nat, Field) -> string, val: (nat, Field) -> V, i: nat, f: Field)
    requires n <= 9 && 1 <= i <= n && Injective(key) && NoDuplicates(fs) && f in fs
    ensures key(i, f) in Table(n, base, fs, key, val) && Table(n, base, fs, key, val)[key(i, f)] == val(i, f)
  {
    var m := Table(n - 1, base, fs, key, val);
    if i < n {
      TableLookup(n - 1, base, fs, key, val, i, f);
      RowOther(m, n, fs, key, val, key(i, f));
    } else {
      RowOwn(m, n, fs, key, val, f);
    }
  }

  /** The initial entries survive: no row overwrites them. */
  lemma {:induction false} TableKeepsBase<V>(n: nat, base: map<string, V>, fs: seq<Field>, key: (nat, Field) -> string, val: (nat, Field) -> V, k: string)
    requires n <= 9 && Apart(base, key) && k in base
    ensures k in Table(n, base, fs, key, val) && Table(n, base, fs, key, val)[k] == base[k]
  {
    if n > 0 {
      TableKeepsBase(n - 1, base, fs, key, val, k);
      RowOther(Table(n - 1, base, fs, key, val), n, fs, key, val, k);
    }
  }

  /** The table holds nothing but the initial keys and the slots' keys. */
  lemma {:induction false} TableKeys<V>(n: nat, base: map<string, V>, fs: seq<Field>, key: (nat, Field) -> string, val: (nat, Field) -> V, k: string)
    requires k in Table(n, base, fs, key, val)
    ensures k in base || exists i, f :: 1 <= i <= n && k == key(i, f)
  {
    if n > 0 {
      if forall f :: f in fs ==> k != key(n, f) {
        RowOther(Table(n - 1, base, fs, key, val), n, fs, key, val, k);
        TableKeys(n - 1, base, fs, key, val, k);
      }
    }
  }

  /** No key of a later slot is in the table yet. */
  lemma {:induction false} TableFresh<V>(n: nat, base: map<string, V>, fs: seq<Field>, key: (nat, Field) -> string, val: (nat, Field) -> V, i: nat, f: Field)
    requires n < i <= 9 && Injective(key) && Apart(base, key)
    ensures key(i, f) !in Table(n, base, fs, key, val)
  {
    if n > 0 {
      TableFresh(n - 1, base, fs, key, val, i, f);
      RowOther(Table(n - 1, base, fs, key, val), n, fs, key, val, key(i, f));
    }
  }

  /** Fresh, distinct keys per slot: the table has `|base| + n * |fs|` entries. */
  lemma {:induction false} TableSize<V>(n: nat, base: map<string, V>, fs: seq<Field>, key: (nat, Field) -> string, val: (nat, Field) -> V)
    requires n <= 9 && Injective(key) && Apart(base, key) && NoDuplicates(fs)
    ensures |Table(n, base, fs, key, val)| == |base| + n * |fs|
  {
    if n > 0 {
      var m := Table(n - 1, base, fs, key, val);
      TableSize(n - 1, base, fs, key, val);
      forall f | f in fs ensures key(n, f) !in m {
        TableFresh(n - 1, base, fs, key, val, n, f);
      }
      RowSize(m, n, fs, key, val);
      assert |Table(n, base, fs, key, val)| == |m| + |fs|;
      MulStep(n, |fs|);
    }
  }

  lemma MulStep(n: nat, k: nat)
    requires n > 0
    ensures (n - 1) * k + k == n * k
  {
  }

  /** The nine fields are distinct and every field is among them. */
  lemma FieldsComplete(f: Field)
    ensures NoDuplicates(Fields) && |Fields| == 9 && f in Fields
  {
    var at := match f
      case Enabled => 0 case Label => 1 case Url => 2 case Method => 3 case Auth => 4
      case Token => 5 case Payload => 6 case Headers => 7 case Color => 8;
    assert Fields[at] == f;
  }

  /** The schema's nine fields are distinct and every field is among them. */
  lemma SchemaFieldsComplete(f: Field)
    ensures NoDuplicates(SchemaFields) && |SchemaFields| == 9 && f in SchemaFields
  {
    var at := match f
      case Enabled => 0 case Label => 1 case Url => 2 case Color => 3 case Method => 4
      case Auth => 5 case Token => 6 case Payload => 7 case Headers => 8;
    assert SchemaFields[at] == f;
  }
}
