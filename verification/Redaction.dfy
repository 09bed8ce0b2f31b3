/** Redaction of secrets (solana_agent/authority/redaction.py) and the mission inputs that pass
    through it (solana_agent/missions/engine.py). The two regular expressions are the parameters
    sensitiveKey and secretValue. */
module Redaction {
  import opened Prelude

  datatype Json =
    | Null
    | Boolean(flag: bool)
    | Number(n: int)
    | Str(text: string)
    | Arr(items: seq<Json>)
    | Obj(fields: seq<Field>)

  datatype Field = Field(key: string, value: Json)

  datatype Patterns = Patterns(sensitiveKey: string -> bool, secretValue: string -> bool)

  const REDACTED := "[REDACTED]"

  /** The one fact about the value patterns: they do not match the replacement. */
  ghost predicate Stable(p: Patterns) {
    !p.secretValue(REDACTED)
  }

  // ---------- the redacted value ----------

  function Redact(p: Patterns, j: Json): Json
    decreases j
  {
    match j
    case Obj(fields) => Obj(RedactFields(p, fields))
    case Arr(items) => Arr(RedactItems(p, items))
    case Str(text) => if p.secretValue(text) then Str(REDACTED) else j
    case _ => j
  }

  function RedactItems(p: Patterns, items: seq<Json>): (r: seq<Json>)
    ensures |r| == |items|
    decreases items
  {
    if items == [] then [] else [Redact(p, items[0])] + RedactItems(p, items[1..])
  }

  function RedactField(p: Patterns, f: Field): Field
    decreases f, 0
  {
    if p.sensitiveKey(f.key) then Field(f.key, Str(REDACTED)) else Field(f.key, Redact(p, f.value))
  }

  function RedactFields(p: Patterns, fields: seq<Field>): (r: seq<Field>)
    ensures |r| == |fields| && forall i :: 0 <= i < |fields| ==> r[i].key == fields[i].key
    decreases fields
  {
    if fields == [] then [] else [RedactField(p, fields[0])] + RedactFields(p, fields[1..])
  }

  // ---------- the detected paths ----------

  function Decimal(n: nat): string {
    if n < 10 then [DIGITS[n]] else Decimal(n / 10) + [DIGITS[n % 10]]
  }

  const DIGITS := "0123456789"

  function ChildPath(path: string, key: string): string {
    if path == "" then key else path + "." + key
  }

  function ItemPath(path: string, index: nat): string {
    path + "[" + Decimal(index) + "]"
  }

  function Paths(p: Patterns, j: Json, path: string): seq<string>
    decreases j
  {
    match j
    case Obj(fields) => FieldPaths(p, fields, path)
    case Arr(items) => ItemPaths(p, items, path, 0)
    case Str(text) => if p.secretValue(text) then [path] else []
    case _ => []
  }

  function ItemPaths(p: Patterns, items: seq<Json>, path: string, index: nat): seq<string>
    decreases items
  {
    if items == [] then [] else Paths(p, items[0], ItemPath(path, index)) + ItemPaths(p, items[1..], path, index + 1)
  }

  function PathsOfField(p: Patterns, f: Field, path: string): seq<string>
    decreases f, 0
  {
    if p.sensitiveKey(f.key) then [ChildPath(path, f.key)] else Paths(p, f.value, ChildPath(path, f.key))
  }

  function FieldPaths(p: Patterns, fields: seq<Field>, path: string): seq<string>
    decreases fields
  {
    if fields == [] then [] else PathsOfField(p, fields[0], path) + FieldPaths(p, fields[1..], path)
  }

  lemma FieldsUnfold(p: Patterns, fields: seq<Field>, i: nat, path: string)
    requires i < |fields|
    ensures RedactFields(p, fields[i..]) == [RedactField(p, fields[i])] + RedactFields(p, fields[i + 1..])
    ensures FieldPaths(p, fields[i..], path) == PathsOfField(p, fields[i], path) + FieldPaths(p, fields[i + 1..], path)
  {
    assert fields[i..][1..] == fields[i + 1..];
  }

  lemma ItemsUnfold(p: Patterns, items: seq<Json>, i: nat, path: string)
    requires i < |items|
    ensures RedactItems(p, items[i..]) == [Redact(p, items[i])] + RedactItems(p, items[i + 1..])
    ensures ItemPaths(p, items[i..], path, i) == Paths(p, items[i], ItemPath(path, i)) + ItemPaths(p, items[i + 1..], path, i + 1)
  {
    assert items[i..][1..] == items[i + 1..];
  }

  lemma Associate<T>(a: seq<T>, b: seq<T>, c: seq<T>)
    ensures a + (b + c) == (a + b) + c
  {
  }

  // ---------- the program ----------

  class Redactor {
    const patterns: Patterns
    var detected: seq<string>

    constructor (patterns: Patterns)
      ensures this.patterns == patterns && detected == []
    {
      this.patterns := patterns;
      detected := [];
    }

    /** visit: returns the redacted value and appends the paths it found. */
    method Visit(item: Json, path: string) returns (output: Json)
      modifies this
      ensures output == Redact(patterns, item)
      ensures detected == old(detected) + Paths(patterns, item, path)
      decreases item
    {
      match item
      case Obj(fields) =>
        var out := VisitFields(fields, path);
        output := Obj(out);
      case Arr(items) =>
        var out := VisitItems(items, path);
        output := Arr(out);
      case Str(text) =>
        if patterns.secretValue(text) {
          detected := detected + [path];
          return Str(REDACTED);
        }
        output := item;
      case _ => output := item;
    }

    method VisitFields(fields: seq<Field>, path: string) returns (output: seq<Field>)
      modifies this
      ensures output == RedactFields(patterns, fields)
      ensures detected == old(detected) + FieldPaths(patterns, fields, path)
      decreases fields
    {
      output := [];
      for i := 0 to |fields|
        invariant output + RedactFields(patterns, fields[i..]) == RedactFields(patterns, fields)
        invariant detected + FieldPaths(patterns, fields[i..], path) == old(detected) + FieldPaths(patterns, fields, path)
      {
        FieldsUnfold(patterns, fields, i, path);
        Associate(output, [RedactField(patterns, fields[i])], RedactFields(patterns, fields[i + 1..]));
        Associate(detected, PathsOfField(patterns, fields[i], path), FieldPaths(patterns, fields[i + 1..], path));
        var field := VisitField(fields[i], path);
        output := output + [field];
      }
    }

    method VisitField(field: Field, path: string) returns (output: Field)
      modifies this
      ensures output == RedactField(patterns, field)
      ensures detected == old(detected) + PathsOfField(patterns, field, path)
      decreases field, 0
    {
      var childPath := ChildPath(path, field.key);
      if patterns.sensitiveKey(field.key) {
        detected := detected + [childPath];
        output := Field(field.key, Str(REDACTED));
      } else {
        var child := Visit(field.value, childPath);
        output := Field(field.key, child);
      }
    }

    method VisitItems(items: seq<Json>, path: string) returns (output: seq<Json>)
      modifies this
      ensures output == RedactItems(patterns, items)
      ensures detected == old(detected) + ItemPaths(patterns, items, path, 0)
      decreases items
    {
      output := [];
      for i := 0 to |items|
        invariant output + RedactItems(patterns, items[i..]) == RedactItems(patterns, items)
        invariant detected + ItemPaths(patterns, items[i..], path, i) == old(detected) + ItemPaths(patterns, items, path, 0)
      {
        ItemsUnfold(patterns, items, i, path);
        Associate(output, [Redact(patterns, items[i])], RedactItems(patterns, items[i + 1..]));
        Associate(detected, Paths(patterns, items[i], ItemPath(path, i)), ItemPaths(patterns, items[i + 1..], path, i + 1));
        var child := Visit(items[i], ItemPath(path, i));
        output := output + [child];
      }
    }
  }

  // ---------- nothing secret is left ----------

  /** Sensitive keys hold the replacement, and no string matches a secret pattern. */
  predicate Clean(p: Patterns, j: Json)
    decreases j
  {
    match j
    case Obj(fields) => forall f <- fields :: CleanField(p, f)
    case Arr(items) => forall item <- items :: Clean(p, item)
    case Str(text) => !p.secretValue(text)
    case _ => true
  }

  predicate CleanField(p: Patterns, f: Field)
    decreases f, 0
  {
    if p.sensitiveKey(f.key) then f.value == Str(REDACTED) else Clean(p, f.value)
  }

  lemma ItemsRedactedEach(p: Patterns, items: seq<Json>, i: nat)
    requires i < |items|
    ensures RedactItems(p, items)[i] == Redact(p, items[i])
  {
    if i > 0 { ItemsRedactedEach(p, items[1..], i - 1); }
  }

  lemma FieldsRedactedEach(p: Patterns, fields: seq<Field>, i: nat)
    requires i < |fields|
    ensures RedactFields(p, fields)[i] == RedactField(p, fields[i])
  {
    if i > 0 { FieldsRedactedEach(p, fields[1..], i - 1); }
  }

  /** The redacted value is clean. */
  lemma {:induction false} RedactedIsClean(p: Patterns, j: Json)
    requires Stable(p)
    ensures Clean(p, Redact(p, j))
    decreases j
  {
    match j
    case Obj(fields) =>
      var r := RedactFields(p, fields);
      forall f | f in r ensures CleanField(p, f) {
        var i :| 0 <= i < |r| && r[i] == f;
        FieldsRedactedEach(p, fields, i);
        assert fields[i] in fields;
        RedactedIsClean(p, fields[i].value);
      }
    case Arr(items) =>
      var r := RedactItems(p, items);
      forall item | item in r ensures Clean(p, item) {
        var i :| 0 <= i < |r| && r[i] == item;
        ItemsRedactedEach(p, items, i);
        RedactedIsClean(p, items[i]);
      }
    case _ =>
  }

  /** A clean value is left as it is. */
  lemma {:induction false} CleanIsUnchanged(p: Patterns, j: Json)
    requires Clean(p, j)
    ensures Redact(p, j) == j
    decreases j
  {
    match j
    case Obj(fields) =>
      forall i | 0 <= i < |fields| ensures RedactFields(p, fields)[i] == fields[i] {
        assert CleanField(p, fields[i]);
        FieldsRedactedEach(p, fields, i);
        if !p.sensitiveKey(fields[i].key) { CleanIsUnchanged(p, fields[i].value); }
      }
    case Arr(items) =>
      forall i | 0 <= i < |items| ensures RedactItems(p, items)[i] == items[i] {
        assert Clean(p, items[i]);
        ItemsRedactedEach(p, items, i);
        CleanIsUnchanged(p, items[i]);
      }
    case _ =>
  }

  /** Redaction changes a value exactly when something in it is secret, and doing it twice changes
      nothing more. */
  lemma RedactIsIdempotent(p: Patterns, j: Json)
    requires Stable(p)
    ensures Redact(p, j) == j <==> Clean(p, j)
    ensures Redact(p, Redact(p, j)) == Redact(p, j)
  {
    RedactedIsClean(p, j);
    CleanIsUnchanged(p, Redact(p, j));
    if Clean(p, j) { CleanIsUnchanged(p, j); }
  }

  /** The second value is the first with every secret masked and nothing else changed. */
  predicate Masks(p: Patterns, before: Json, after: Json)
    decreases before
  {
    match before
    case Obj(fields) =>
      after.Obj? && |after.fields| == |fields| &&
      forall i :: 0 <= i < |fields| ==> MasksField(p, fields[i], after.fields[i])
    case Arr(items) =>
      after.Arr? && |after.items| == |items| && forall i :: 0 <= i < |items| ==> Masks(p, items[i], after.items[i])
    case Str(text) => after == Str(if p.secretValue(text) then "[REDACTED]" else text)
    case _ => after == before
  }

  predicate MasksField(p: Patterns, before: Field, after: Field)
    decreases before, 0
  {
    after.key == before.key && if p.sensitiveKey(before.key) then after.value == Str("[REDACTED]") else Masks(p, before.value, after.value)
  }

  /** Redaction masks the secrets, and only them. */
  lemma {:induction false} RedactMasks(p: Patterns, j: Json)
    ensures Masks(p, j, Redact(p, j))
    decreases j
  {
    match j
    case Obj(fields) =>
      forall i | 0 <= i < |fields| ensures MasksField(p, fields[i], RedactFields(p, fields)[i]) {
        FieldsRedactedEach(p, fields, i);
        RedactMasks(p, fields[i].value);
      }
    case Arr(items) =>
      forall i | 0 <= i < |items| ensures Masks(p, items[i], RedactItems(p, items)[i]) {
        ItemsRedactedEach(p, items, i);
        RedactMasks(p, items[i]);
      }
    case _ =>
  }

  /** A detected path names its place: keys joined by dots, positions in brackets. */
  lemma PathsNamePlaces(p: Patterns, key: string, inner: string, value: Json)
    requires !p.sensitiveKey(key) && p.sensitiveKey(inner) && key != ""
    ensures Paths(p, Obj([Field(key, Arr([Null, Obj([Field(inner, value)])]))]), "") == [key + "[1]." + inner]
  {
    var found := Obj([Field(inner, value)]);
    var place := ItemPath(key, 1);
    assert Decimal(1) == "1" && place == key + "[" + "1" + "]" && place == key + "[1]";
    assert |place| >= 3 && ChildPath(place, inner) == place + "." + inner == key + "[1]." + inner;
    assert FieldPaths(p, [Field(inner, value)], place) == PathsOfField(p, Field(inner, value), place) + [] by {
      assert [Field(inner, value)][1..] == [];
    }
    assert Paths(p, found, place) == [key + "[1]." + inner];
    ItemsUnfold(p, [Null, found], 0, key);
    ItemsUnfold(p, [Null, found], 1, key);
    assert [Null, found][0..] == [Null, found] && [Null, found][2..] == [];
    assert ItemPaths(p, [Null, found], key, 0) == [key + "[1]." + inner];
    FieldsUnfold(p, [Field(key, Arr([Null, found]))], 0, "");
    assert [Field(key, Arr([Null, found]))][0..] == [Field(key, Arr([Null, found]))];
    assert [Field(key, Arr([Null, found]))][1..] == [];
    assert ChildPath("", key) == key;
  }

  // ---------- what the policy sees ----------

  /** _contains_redaction. */
  predicate ContainsRedaction(j: Json)
    decreases j
  {
    match j
    case Str(text) => text == REDACTED
    case Obj(fields) => exists f <- fields :: ContainsRedaction(f.value)
    case Arr(items) => exists item <- items :: ContainsRedaction(item)
    case _ => false
  }

  lemma FieldPathsEmpty(p: Patterns, fields: seq<Field>, path: string)
    ensures FieldPaths(p, fields, path) == [] <==> forall i :: 0 <= i < |fields| ==> PathsOfField(p, fields[i], path) == []
  {
    if fields != [] {
      FieldPathsEmpty(p, fields[1..], path);
      assert forall i :: 0 < i < |fields| ==> fields[i] == fields[1..][i - 1];
    }
  }

  lemma ItemPathsEmpty(p: Patterns, items: seq<Json>, path: string, index: nat)
    ensures ItemPaths(p, items, path, index) == [] <==>
              forall i :: 0 <= i < |items| ==> Paths(p, items[i], ItemPath(path, index + i)) == []
  {
    if items != [] {
      ItemPathsEmpty(p, items[1..], path, index + 1);
      forall i | 0 < i < |items|
        ensures Paths(p, items[i], ItemPath(path, index + i)) == Paths(p, items[1..][i - 1], ItemPath(path, index + 1 + (i - 1)))
      {
      }
      assert ItemPath(path, index + 0) == ItemPath(path, index);
      if forall i :: 0 <= i < |items| ==> Paths(p, items[i], ItemPath(path, index + i)) == [] {
        assert Paths(p, items[0], ItemPath(path, index + 0)) == [];
        forall i | 0 <= i < |items[1..]| ensures Paths(p, items[1..][i], ItemPath(path, index + 1 + i)) == [] {
          assert Paths(p, items[i + 1], ItemPath(path, index + (i + 1))) == [];
        }
      }
    }
  }

  /** The policy finds the replacement in the redacted value if and only if something was detected or
      it was there before. */
  lemma {:induction false} DetectionIsVisible(p: Patterns, j: Json, path: string)
    ensures ContainsRedaction(Redact(p, j)) <==> Paths(p, j, path) != [] || ContainsRedaction(j)
    decreases j
  {
    match j
    case Obj(fields) =>
      FieldPathsEmpty(p, fields, path);
      forall i | 0 <= i < |fields|
        ensures ContainsRedaction(RedactFields(p, fields)[i].value) <==>
                  PathsOfField(p, fields[i], path) != [] || (ContainsRedaction(fields[i].value) && !p.sensitiveKey(fields[i].key))
      {
        FieldsRedactedEach(p, fields, i);
        assert fields[i] in fields;
        DetectionIsVisible(p, fields[i].value, ChildPath(path, fields[i].key));
      }
      FieldsVisible(p, fields, path);
    case Arr(items) =>
      forall i | 0 <= i < |items| ensures ItemVisible(p, items, path, i) {
        ItemsRedactedEach(p, items, i);
        DetectionIsVisible(p, items[i], ItemPath(path, 0 + i));
      }
      ItemsVisible(p, items, path);
    case _ =>
  }

  lemma FieldsVisible(p: Patterns, fields: seq<Field>, path: string)
    requires forall i :: 0 <= i < |fields| ==>
               (ContainsRedaction(RedactFields(p, fields)[i].value) <==>
                  PathsOfField(p, fields[i], path) != [] || (ContainsRedaction(fields[i].value) && !p.sensitiveKey(fields[i].key)))
    ensures ContainsRedaction(Redact(p, Obj(fields))) <==> FieldPaths(p, fields, path) != [] || ContainsRedaction(Obj(fields))
  {
    FieldPathsEmpty(p, fields, path);
    var r := RedactFields(p, fields);
    if ContainsRedaction(Obj(r)) {
      var f :| f in r && ContainsRedaction(f.value);
      var i :| 0 <= i < |r| && r[i] == f;
      assert fields[i] in fields;
    }
    if FieldPaths(p, fields, path) != [] {
      var i :| 0 <= i < |fields| && PathsOfField(p, fields[i], path) != [];
      assert r[i] in r;
    } else if ContainsRedaction(Obj(fields)) {
      var f :| f in fields && ContainsRedaction(f.value);
      var i :| 0 <= i < |fields| && fields[i] == f;
      assert r[i] in r && PathsOfField(p, fields[i], path) == [];
    }
  }

  /** The i-th item shows the replacement afterwards exactly when something in it was detected, or it
      did before. */
  ghost predicate ItemVisible(p: Patterns, items: seq<Json>, path: string, i: nat)
    requires i < |items|
  {
    ContainsRedaction(RedactItems(p, items)[i]) <==> Paths(p, items[i], ItemPath(path, 0 + i)) != [] || ContainsRedaction(items[i])
  }

  lemma ItemsShow(p: Patterns, items: seq<Json>, path: string)
    requires forall i :: 0 <= i < |items| ==> ItemVisible(p, items, path, i)
    requires ContainsRedaction(Arr(RedactItems(p, items)))
    ensures ItemPaths(p, items, path, 0) != [] || ContainsRedaction(Arr(items))
  {
    ItemPathsEmpty(p, items, path, 0);
    var r := RedactItems(p, items);
    var item :| item in r && ContainsRedaction(item);
    var i :| 0 <= i < |r| && r[i] == item;
    assert ItemVisible(p, items, path, i) && items[i] in items;
  }

  lemma ItemsAreShown(p: Patterns, items: seq<Json>, path: string)
    requires forall i :: 0 <= i < |items| ==> ItemVisible(p, items, path, i)
    requires ItemPaths(p, items, path, 0) != [] || ContainsRedaction(Arr(items))
    ensures ContainsRedaction(Arr(RedactItems(p, items)))
  {
    var r := RedactItems(p, items);
    var i: nat;
    if ItemPaths(p, items, path, 0) != [] {
      ItemPathsEmpty(p, items, path, 0);
      i :| 0 <= i < |items| && Paths(p, items[i], ItemPath(path, 0 + i)) != [];
    } else {
      var item :| item in items && ContainsRedaction(item);
      i :| 0 <= i < |items| && items[i] == item;
    }
    assert ItemVisible(p, items, path, i) && r[i] in r;
  }

  lemma ItemsVisible(p: Patterns, items: seq<Json>, path: string)
    requires forall i :: 0 <= i < |items| ==> ItemVisible(p, items, path, i)
    ensures ContainsRedaction(Redact(p, Arr(items))) <==> ItemPaths(p, items, path, 0) != [] || ContainsRedaction(Arr(items))
  {
    if ContainsRedaction(Arr(RedactItems(p, items))) {
      ItemsShow(p, items, path);
    } else if ItemPaths(p, items, path, 0) != [] || ContainsRedaction(Arr(items)) {
      ItemsAreShown(p, items, path);
    }
  }

  // ---------- mission inputs ----------

  datatype InputDef = InputDef(name: string, required: bool, fallback: Json)

  datatype InputError = UnknownInputs(names: set<string>) | MissingInput(name: string)

  predicate UniqueNames(defs: seq<InputDef>) {
    forall i, j :: 0 <= i < j < |defs| ==> defs[i].name != defs[j].name
  }

  /** dict.get over the fields of an object; None is no entry. */
  function Get(fields: seq<Field>, name: string): Option<Json> {
    if fields == [] then None
    else if fields[0].key == name then Some(fields[0].value)
    else Get(fields[1..], name)
  }

  function KeySet(fields: seq<Field>): set<string> {
    set f | f in fields :: f.key
  }

  function Names(defs: seq<InputDef>): set<string> {
    set d | d in defs :: d.name
  }

  function InputValue(d: InputDef, supplied: seq<Field>): Json {
    match Get(supplied, d.name) case Some(value) => value case None => d.fallback
  }

  function ResolveEach(defs: seq<InputDef>, supplied: seq<Field>): Result<seq<Field>, InputError> {
    if defs == [] then Ok([])
    else
      var value := InputValue(defs[0], supplied);
      if defs[0].required && value.Null? then Err(MissingInput(defs[0].name))
      else
        match ResolveEach(defs[1..], supplied)
        case Err(error) => Err(error)
        case Ok(rest) => Ok([Field(defs[0].name, value)] + rest)
  }

  /** _resolve_inputs. */
  function ResolveInputs(p: Patterns, defs: seq<InputDef>, supplied: seq<Field>): Result<seq<Field>, InputError> {
    if KeySet(supplied) - Names(defs) != {} then Err(UnknownInputs(KeySet(supplied) - Names(defs)))
    else
      match ResolveEach(defs, supplied)
      case Err(error) => Err(error)
      case Ok(fields) => Ok(RedactFields(p, fields))
  }

  /** The value of an input is the one supplied under its name, and the default only without one. */
  lemma {:induction false} SuppliedOrDefault(d: InputDef, supplied: seq<Field>)
    ensures d.name !in KeySet(supplied) ==> InputValue(d, supplied) == d.fallback
    ensures d.name in KeySet(supplied) ==>
              exists i :: 0 <= i < |supplied| && supplied[i].key == d.name && InputValue(d, supplied) == supplied[i].value
                          && forall k :: 0 <= k < i ==> supplied[k].key != d.name
    decreases |supplied|
  {
    if supplied != [] && supplied[0].key != d.name {
      SuppliedOrDefault(d, supplied[1..]);
      assert d.name in KeySet(supplied) <==> d.name in KeySet(supplied[1..]);
      if d.name in KeySet(supplied[1..]) {
        var i :| 0 <= i < |supplied[1..]| && supplied[1..][i].key == d.name && InputValue(d, supplied[1..]) == supplied[1..][i].value
                 && forall k :: 0 <= k < i ==> supplied[1..][k].key != d.name;
        assert supplied[i + 1].key == d.name && forall k :: 0 < k < i + 1 ==> supplied[k] == supplied[1..][k - 1];
      }
    }
  }

  /** A required input without a value. */
  predicate Missing(d: InputDef, supplied: seq<Field>) {
    d.required && InputValue(d, supplied) == Null
  }

  lemma {:induction false} ResolveEachMeans(defs: seq<InputDef>, supplied: seq<Field>)
    ensures match ResolveEach(defs, supplied)
            case Ok(fields) =>
              && |fields| == |defs|
              && forall i :: 0 <= i < |defs| ==> !Missing(defs[i], supplied) && fields[i] == Field(defs[i].name, InputValue(defs[i], supplied))
            case Err(error) =>
              exists i :: 0 <= i < |defs| && Missing(defs[i], supplied) && error == MissingInput(defs[i].name)
                          && forall k :: 0 <= k < i ==> !Missing(defs[k], supplied)
    decreases |defs|
  {
    if defs != [] && !Missing(defs[0], supplied) {
      ResolveEachMeans(defs[1..], supplied);
      match ResolveEach(defs[1..], supplied)
      case Ok(_) =>
      case Err(error) =>
        var i :| 0 <= i < |defs[1..]| && Missing(defs[1..][i], supplied) && error == MissingInput(defs[1..][i].name)
                 && forall k :: 0 <= k < i ==> !Missing(defs[1..][k], supplied);
        assert Missing(defs[i + 1], supplied) && forall k :: 0 < k < i + 1 ==> defs[k] == defs[1..][k - 1];
    }
  }

  /** Inputs resolve if and only if no unknown one is supplied and no required one is missing; each
      then has its supplied value or its default, with the secrets masked. */
  lemma ResolveInputsMeans(p: Patterns, defs: seq<InputDef>, supplied: seq<Field>)
    ensures match ResolveInputs(p, defs, supplied)
            case Ok(fields) =>
              && KeySet(supplied) <= Names(defs) && |fields| == |defs|
              && forall i :: 0 <= i < |defs| ==>
                   !Missing(defs[i], supplied) && MasksField(p, Field(defs[i].name, InputValue(defs[i], supplied)), fields[i])
            case Err(UnknownInputs(names)) => names != {} && names == KeySet(supplied) - Names(defs)
            case Err(MissingInput(name)) =>
              && KeySet(supplied) <= Names(defs)
              && exists i :: 0 <= i < |defs| && Missing(defs[i], supplied) && name == defs[i].name
  {
    ResolveEachMeans(defs, supplied);
    assert KeySet(supplied) <= Names(defs) <==> KeySet(supplied) - Names(defs) == {} by {
      assert forall k :: k in KeySet(supplied) && k !in Names(defs) ==> k in KeySet(supplied) - Names(defs);
    }
    if ResolveInputs(p, defs, supplied).Ok? {
      var fields := ResolveEach(defs, supplied).value;
      RedactMasks(p, Obj(fields));
      assert Redact(p, Obj(fields)) == Obj(RedactFields(p, fields));
    }
  }

  /** Resolved fields follow the definitions. */
  ghost predicate Follows(defs: seq<InputDef>, fields: seq<Field>) {
    |fields| == |defs| && forall i :: 0 <= i < |defs| ==> fields[i].key == defs[i].name && (defs[i].required ==> fields[i].value != Null)
  }

  lemma {:induction false} ResolvedFollows(defs: seq<InputDef>, supplied: seq<Field>)
    requires ResolveEach(defs, supplied).Ok?
    ensures Follows(defs, ResolveEach(defs, supplied).value)
    decreases |defs|
  {
    if defs != [] { ResolvedFollows(defs[1..], supplied); }
  }

  lemma RedactedFollows(p: Patterns, defs: seq<InputDef>, fields: seq<Field>)
    requires Follows(defs, fields)
    ensures Follows(defs, RedactFields(p, fields))
  {
    forall i | 0 <= i < |defs| ensures defs[i].required ==> RedactFields(p, fields)[i].value != Null {
      FieldsRedactedEach(p, fields, i);
    }
  }

  lemma {:induction false} GetAt(fields: seq<Field>, i: nat)
    requires i < |fields| && forall a, b :: 0 <= a < b < |fields| ==> fields[a].key != fields[b].key
    ensures Get(fields, fields[i].key) == Some(fields[i].value)
    decreases i
  {
    if i > 0 {
      assert fields[0].key != fields[i].key;
      GetAt(fields[1..], i - 1);
    }
  }

  /** Fields that follow the definitions resolve to themselves. */
  lemma {:induction false} ResolveOwnOutput(defs: seq<InputDef>, fields: seq<Field>, i: nat)
    requires UniqueNames(defs) && Follows(defs, fields) && i <= |defs|
    ensures ResolveEach(defs[i..], fields) == Ok(fields[i..])
    decreases |defs| - i
  {
    if i == |defs| {
      assert defs[i..] == [] && fields[i..] == [];
    } else {
      var rest := defs[i..];
      assert rest[0] == defs[i] && rest[1..] == defs[i + 1..];
      assert forall a, b :: 0 <= a < b < |fields| ==> fields[a].key == defs[a].name && fields[b].key == defs[b].name;
      GetAt(fields, i);
      assert InputValue(defs[i], fields) == fields[i].value;
      ResolveOwnOutput(defs, fields, i + 1);
      assert ResolveEach(rest, fields) == Ok([fields[i]] + fields[i + 1..]);
      assert [fields[i]] + fields[i + 1..] == fields[i..];
    }
  }

  /** Resolving the persisted inputs again gives the same inputs, so a resume with them passes the
      check of the inputs hash. */
  lemma ResolveIsIdempotent(p: Patterns, defs: seq<InputDef>, supplied: seq<Field>)
    requires Stable(p) && UniqueNames(defs) && ResolveInputs(p, defs, supplied).Ok?
    ensures ResolveInputs(p, defs, ResolveInputs(p, defs, supplied).value) == ResolveInputs(p, defs, supplied)
  {
    var fields := ResolveEach(defs, supplied).value;
    var r := RedactFields(p, fields);
    ResolvedFollows(defs, supplied);
    RedactedFollows(p, defs, fields);
    ResolveOwnOutput(defs, r, 0);
    assert defs[0..] == defs && r[0..] == r;
    RedactIsIdempotent(p, Obj(fields));
    assert Redact(p, Obj(fields)) == Obj(r);
    forall f | f in r ensures f.key in Names(defs) {
      var i :| 0 <= i < |r| && r[i] == f;
      assert defs[i] in defs;
    }
  }
}
