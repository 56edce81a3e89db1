/**
 Masking of audit payloads (modules/audit/audit.service.ts). A payload is a
 JSON tree whose objects list their fields in order. `toLowerCase` is a
 parameter: every result holds for any case folding.
 */
module AuditMask {
  import opened Basics

  datatype Json =
    | Undefined
    | Null
    | Bool(b: bool)
    | Num(n: real)
    | Str(s: string)
    | Arr(items: seq<Json>)
    | Obj(fields: seq<Field>)

  datatype Field = Field(key: string, value: Json)

  const FIELDS: seq<string> := ["password", "pin", "secret", "secretKey", "token", "apiKey", "creditCard"]
  const MASKED: Json := Str("***MASKED***")

  type Lower = string -> string

  predicate Sensitive(lower: Lower, key: string) {
    exists k :: 0 <= k < |FIELDS| && Contains(lower(key), lower(FIELDS[k]))
  }

  /** maskSensitiveData: falsy values and primitives are returned as they are. */
  function Mask(lower: Lower, j: Json): Json {
    match j
    case Arr(items) => Arr(MaskAll(lower, items))
    case Obj(fields) => Obj(MaskFields(lower, fields))
    case _ => j
  }

  function MaskAll(lower: Lower, items: seq<Json>): seq<Json> {
    if items == [] then [] else [Mask(lower, items[0])] + MaskAll(lower, items[1..])
  }

  function MaskField(lower: Lower, f: Field): Field {
    Field(f.key, if Sensitive(lower, f.key) then MASKED else Mask(lower, f.value))
  }

  function MaskFields(lower: Lower, fields: seq<Field>): seq<Field> {
    if fields == [] then [] else [MaskField(lower, fields[0])] + MaskFields(lower, fields[1..])
  }

  // ---- The kernel of masking ----

  /** The trees agree everywhere except at values under sensitive keys. */
  predicate Agree(lower: Lower, a: Json, b: Json) {
    match (a, b)
    case (Arr(xs), Arr(ys)) => AgreeAll(lower, xs, ys)
    case (Obj(fs), Obj(gs)) => AgreeFields(lower, fs, gs)
    case _ => a == b
  }

  predicate AgreeAll(lower: Lower, xs: seq<Json>, ys: seq<Json>) {
    if xs == [] || ys == [] then xs == [] && ys == []
    else Agree(lower, xs[0], ys[0]) && AgreeAll(lower, xs[1..], ys[1..])
  }

  predicate AgreeFields(lower: Lower, fs: seq<Field>, gs: seq<Field>) {
    if fs == [] || gs == [] then fs == [] && gs == []
    else
      && fs[0].key == gs[0].key
      && (Sensitive(lower, fs[0].key) || Agree(lower, fs[0].value, gs[0].value))
      && AgreeFields(lower, fs[1..], gs[1..])
  }

  lemma ConsEqual<T>(x: T, xs: seq<T>, y: T, ys: seq<T>)
    ensures [x] + xs == [y] + ys <==> x == y && xs == ys
  {
    if [x] + xs == [y] + ys {
      assert ([x] + xs)[0] == x && ([y] + ys)[0] == y;
      assert ([x] + xs)[1..] == xs && ([y] + ys)[1..] == ys;
    }
  }

  /** Two payloads are indistinguishable in the audit log exactly when they agree outside sensitive values. */
  lemma {:induction false} MaskKernel(lower: Lower, a: Json, b: Json)
    ensures Mask(lower, a) == Mask(lower, b) <==> Agree(lower, a, b)
    decreases a, 1
  {
    match (a, b)
    case (Arr(xs), Arr(ys)) => KernelAll(lower, xs, ys);
    case (Obj(fs), Obj(gs)) => KernelFields(lower, fs, gs);
    case _ =>
  }

  lemma {:induction false} KernelAll(lower: Lower, xs: seq<Json>, ys: seq<Json>)
    ensures MaskAll(lower, xs) == MaskAll(lower, ys) <==> AgreeAll(lower, xs, ys)
    decreases xs, 0
  {
    if xs != [] && ys != [] {
      MaskKernel(lower, xs[0], ys[0]);
      KernelAll(lower, xs[1..], ys[1..]);
      ConsEqual(Mask(lower, xs[0]), MaskAll(lower, xs[1..]), Mask(lower, ys[0]), MaskAll(lower, ys[1..]));
    }
  }

  lemma {:induction false} KernelFields(lower: Lower, fs: seq<Field>, gs: seq<Field>)
    ensures MaskFields(lower, fs) == MaskFields(lower, gs) <==> AgreeFields(lower, fs, gs)
    decreases fs, 0
  {
    if fs != [] && gs != [] {
      MaskKernel(lower, fs[0].value, gs[0].value);
      KernelFields(lower, fs[1..], gs[1..]);
      ConsEqual(MaskField(lower, fs[0]), MaskFields(lower, fs[1..]),
                MaskField(lower, gs[0]), MaskFields(lower, gs[1..]));
    }
  }

  // ---- Fixed points ----

  /** Every value under a sensitive key, at every depth outside masked values, is the mask. */
  predicate Clean(lower: Lower, j: Json) {
    match j
    case Arr(items) => forall x :: x in items ==> Clean(lower, x)
    case Obj(fields) =>
      forall f: Field :: f in fields ==>
        if Sensitive(lower, f.key) then f.value == MASKED else Clean(lower, f.value)
    case _ => true
  }

  lemma {:induction false} MaskAllAt(lower: Lower, items: seq<Json>)
    ensures |MaskAll(lower, items)| == |items|
    ensures forall i :: 0 <= i < |items| ==> MaskAll(lower, items)[i] == Mask(lower, items[i])
  {
    if items != [] {
      MaskAllAt(lower, items[1..]);
    }
  }

  lemma {:induction false} MaskFieldsAt(lower: Lower, fields: seq<Field>)
    ensures |MaskFields(lower, fields)| == |fields|
    ensures forall i :: 0 <= i < |fields| ==> MaskFields(lower, fields)[i] == MaskField(lower, fields[i])
  {
    if fields != [] {
      MaskFieldsAt(lower, fields[1..]);
    }
  }

  /** A masked payload hides every sensitive value. */
  lemma {:induction false} MaskIsClean(lower: Lower, j: Json)
    ensures Clean(lower, Mask(lower, j))
    decreases j
  {
    match j
    case Arr(items) =>
      MaskAllAt(lower, items);
      forall x | x in MaskAll(lower, items) ensures Clean(lower, x) {
        var i :| 0 <= i < |items| && MaskAll(lower, items)[i] == x;
        MaskIsClean(lower, items[i]);
      }
    case Obj(fields) =>
      MaskFieldsAt(lower, fields);
      forall f: Field | f in MaskFields(lower, fields)
        ensures if Sensitive(lower, f.key) then f.value == MASKED else Clean(lower, f.value)
      {
        var i :| 0 <= i < |fields| && MaskFields(lower, fields)[i] == f;
        MaskIsClean(lower, fields[i].value);
      }
    case _ =>
  }

  /** Masking changes nothing that is already clean. */
  lemma {:induction false} CleanIsFixed(lower: Lower, j: Json)
    requires Clean(lower, j)
    ensures Mask(lower, j) == j
    decreases j
  {
    match j
    case Arr(items) =>
      MaskAllAt(lower, items);
      forall i | 0 <= i < |items| ensures Mask(lower, items[i]) == items[i] {
        CleanIsFixed(lower, items[i]);
      }
      assert MaskAll(lower, items) == items;
    case Obj(fields) =>
      MaskFieldsAt(lower, fields);
      forall i | 0 <= i < |fields| ensures MaskField(lower, fields[i]) == fields[i] {
        assert fields[i] in fields;
        if !Sensitive(lower, fields[i].key) {
          CleanIsFixed(lower, fields[i].value);
        }
      }
      assert MaskFields(lower, fields) == fields;
    case _ =>
  }

  /** The payloads masking leaves alone are exactly the clean ones, and masking twice is masking once. */
  lemma MaskIdempotent(lower: Lower, j: Json)
    ensures Mask(lower, Mask(lower, j)) == Mask(lower, j)
    ensures Mask(lower, j) == j <==> Clean(lower, j)
  {
    MaskIsClean(lower, j);
    CleanIsFixed(lower, Mask(lower, j));
    if Clean(lower, j) {
      CleanIsFixed(lower, j);
    }
  }

  // ---- What stays readable ----

  function Child(j: Json, i: nat): Option<Json> {
    if j.Arr? && i < |j.items| then Some(j.items[i])
    else if j.Obj? && i < |j.fields| then Some(j.fields[i].value)
    else None
  }

  /** The value at a path of child positions. */
  function Look(j: Json, path: seq<nat>): Option<Json> {
    if path == [] then Some(j)
    else
      var c := Child(j, path[0]);
      if c.None? then None else Look(c.value, path[1..])
  }

  /** The path passes a sensitive key. */
  predicate Hidden(lower: Lower, j: Json, path: seq<nat>)
    decreases path
  {
    path != [] && Child(j, path[0]).Some? &&
    ((j.Obj? && Sensitive(lower, j.fields[path[0]].key)) || Hidden(lower, Child(j, path[0]).value, path[1..]))
  }

  function Keys(j: Json): seq<string> {
    if j.Obj? then seq(|j.fields|, i requires 0 <= i < |j.fields| => j.fields[i].key) else []
  }

  /**
   Outside sensitive keys masking keeps the tree: the same paths exist, objects
   keep their keys in order, arrays their length and leaves their value; a path
   through a sensitive key ends at the mask.
   */
  lemma {:induction false} MaskKeepsTheRest(lower: Lower, j: Json, path: seq<nat>)
    ensures Keys(Mask(lower, j)) == Keys(j)
    ensures !Hidden(lower, j, path) ==>
              Look(Mask(lower, j), path) == if Look(j, path).Some? then Some(Mask(lower, Look(j, path).value)) else None
    ensures Hidden(lower, j, path) ==> Look(Mask(lower, j), path) in {None, Some(MASKED)}
    decreases path
  {
    if j.Arr? {
      MaskAllAt(lower, j.items);
    } else if j.Obj? {
      MaskFieldsAt(lower, j.fields);
    }
    if path != [] && Child(j, path[0]).Some? {
      MaskKeepsTheRest(lower, Child(j, path[0]).value, path[1..]);
      if j.Obj? && Sensitive(lower, j.fields[path[0]].key) {
        assert Child(Mask(lower, j), path[0]) == Some(MASKED);
      } else {
        assert Child(Mask(lower, j), path[0]) == Some(Mask(lower, Child(j, path[0]).value));
      }
    }
  }

  // ---- The service ----

  // ---- Which keys are masked ----

  /** Case folding works character by character. */
  ghost predicate Distributes(lower: Lower) {
    forall x, y :: lower(x + y) == lower(x) + lower(y)
  }

  lemma ContainsMiddle(p: string, name: string, q: string)
    ensures Contains(p + name + q, name)
  {
    assert name <= (p + name + q)[|p|..];
  }

  lemma ContainsSplits(s: string, name: string) returns (p: string, q: string)
    requires Contains(s, name)
    ensures s == p + name + q
  {
    var i :| 0 <= i <= |s| && name <= s[i..];
    p, q := s[..i], s[i..][|name|..];
  }

  /** A key is sensitive exactly when its folded form has a folded name inside it. */
  lemma SensitiveExactly(lower: Lower, key: string)
    ensures Sensitive(lower, key) <==>
            exists name, p, q :: name in ["password", "pin", "secret", "secretKey", "token", "apiKey", "creditCard"]
                                 && lower(key) == p + lower(name) + q
  {
    if Sensitive(lower, key) {
      var k :| 0 <= k < |FIELDS| && Contains(lower(key), lower(FIELDS[k]));
      var p, q := ContainsSplits(lower(key), lower(FIELDS[k]));
      assert lower(key) == p + lower(FIELDS[k]) + q;
    }
    forall name, p, q | name in FIELDS && lower(key) == p + lower(name) + q ensures Sensitive(lower, key) {
      var k :| 0 <= k < |FIELDS| && FIELDS[k] == name;
      ContainsMiddle(p, lower(name), q);
    }
  }

  /** Whatever surrounds one of the seven names, the key is sensitive. */
  lemma NamesAreSensitive(lower: Lower, p: string, name: string, q: string)
    requires Distributes(lower)
    requires name in ["password", "pin", "secret", "secretKey", "token", "apiKey", "creditCard"]
    ensures Sensitive(lower, p + name + q)
  {
    assert lower(p + name + q) == lower(p + name) + lower(q) == lower(p) + lower(name) + lower(q);
    SensitiveExactly(lower, p + name + q);
  }

  lemma {:induction false} CleanLook(lower: Lower, j: Json, path: seq<nat>, x: Json)
    requires Clean(lower, j) && Look(j, path) == Some(x)
    ensures Clean(lower, x)
    decreases |path|
  {
    if path != [] {
      CleanChild(lower, j, path[0]);
      CleanLook(lower, Child(j, path[0]).value, path[1..], x);
    }
  }

  lemma CleanChild(lower: Lower, j: Json, i: nat)
    requires Clean(lower, j) && Child(j, i).Some?
    ensures Clean(lower, Child(j, i).value)
  {
    match j
    case Arr(items) => assert items[i] in items;
    case Obj(fields) => assert fields[i] in fields;
  }

  /** In a masked payload, at every depth, a field whose key has one of the seven names in it is the mask. */
  lemma NamedFieldsMasked(lower: Lower, j: Json, path: seq<nat>, fields: seq<Field>, i: nat,
                          p: string, name: string, q: string)
    requires Distributes(lower)
    requires name in ["password", "pin", "secret", "secretKey", "token", "apiKey", "creditCard"]
    requires Look(Mask(lower, j), path) == Some(Obj(fields)) && i < |fields| && fields[i].key == p + name + q
    ensures fields[i].value == Str("***MASKED***")
  {
    MaskIsClean(lower, j);
    CleanLook(lower, Mask(lower, j), path, Obj(fields));
    NamesAreSensitive(lower, p, name, q);
    assert fields[i] in fields;
  }

  /** A field whose folded key has none of the folded names in it keeps its key, and its value is masked in turn. */
  lemma OtherFieldsKept(lower: Lower, fields: seq<Field>, i: nat)
    requires i < |fields|
    requires forall name, p, q ::
               name in ["password", "pin", "secret", "secretKey", "token", "apiKey", "creditCard"] ==>
               lower(fields[i].key) != p + lower(name) + q
    ensures var masked := Mask(lower, Obj(fields));
            && masked.Obj? && |masked.fields| == |fields|
            && masked.fields[i] == Field(fields[i].key, Mask(lower, fields[i].value))
  {
    SensitiveExactly(lower, fields[i].key);
    MaskFieldsAt(lower, fields);
  }

  datatype Changes = Changes(before: Json, after: Json)

  /** An audit record; `rest` stands for the columns that are copied through. */
  datatype Record = Record(rest: string, payload: Json, changes: Option<Changes>)

  function Logged(lower: Lower, r: Record): Record {
    Record(r.rest, Mask(lower, r.payload),
           if r.changes.None? then None
           else Some(Changes(Mask(lower, r.changes.value.before), Mask(lower, r.changes.value.after))))
  }

  /** Two calls of `log` write the same row exactly when they differ only in sensitive values. */
  lemma LogNonInterference(lower: Lower, r: Record, r': Record)
    ensures Logged(lower, r) == Logged(lower, r') <==>
            && r.rest == r'.rest && Agree(lower, r.payload, r'.payload)
            && r.changes.Some? == r'.changes.Some?
            && (r.changes.Some? ==> (
                  && Agree(lower, r.changes.value.before, r'.changes.value.before)
                  && Agree(lower, r.changes.value.after, r'.changes.value.after)))
  {
    MaskKernel(lower, r.payload, r'.payload);
    if r.changes.Some? && r'.changes.Some? {
      MaskKernel(lower, r.changes.value.before, r'.changes.value.before);
      MaskKernel(lower, r.changes.value.after, r'.changes.value.after);
    }
  }

  /** `sensitiveFields.some(f => key.toLowerCase().includes(f.toLowerCase()))` */
  method IsSensitive(lower: Lower, key: string) returns (found: bool)
    ensures found <==> Sensitive(lower, key)
  {
    for k := 0 to |FIELDS|
      invariant forall m :: 0 <= m < k ==> !Contains(lower(key), lower(FIELDS[m]))
    {
      if Contains(lower(key), lower(FIELDS[k])) {
        return true;
      }
    }
    found := false;
  }

  /** maskSensitiveData as written: `map` over arrays, and a loop that overwrites a shallow copy of an object. */
  method MaskSensitiveData(lower: Lower, data: Json) returns (masked: Json)
    ensures masked == Mask(lower, data)
    decreases data
  {
    match data
    case Arr(items) =>
      MaskAllAt(lower, items);
      var out: seq<Json> := [];
      for i := 0 to |items|
        invariant |out| == i && forall k :: 0 <= k < i ==> out[k] == Mask(lower, items[k])
      {
        var item := MaskSensitiveData(lower, items[i]);
        out := out + [item];
      }
      assert out == MaskAll(lower, items);
      masked := Arr(out);
    case Obj(fields) =>
      MaskFieldsAt(lower, fields);
      var copy := fields;
      for i := 0 to |fields|
        invariant |copy| == |fields|
        invariant forall k :: 0 <= k < |fields| ==> copy[k] == if k < i then MaskField(lower, fields[k]) else fields[k]
      {
        var f := copy[i];
        var sensitive := IsSensitive(lower, f.key);
        if sensitive {
          copy := copy[i := Field(f.key, MASKED)];
        } else if f.value.Null? || f.value.Arr? || f.value.Obj? {
          var value := MaskSensitiveData(lower, fields[i].value);
          copy := copy[i := Field(f.key, value)];
        }
      }
      assert copy == MaskFields(lower, fields);
      masked := Obj(copy);
    case _ => masked := data;
  }
}
