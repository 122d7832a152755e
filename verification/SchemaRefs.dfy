/** Rewriting the `definitions` of a JSON Schema to `$defs` (JSON Schema Core 2020-12, section 8.2.4), and what
  * becomes of the references to them (RFC 6901, section 4). */
module SchemaRefs {
  import opened JsonValue
  import opened Text
  import opened Wrappers

  type Fields = map<string, Json>

  const DEFINITIONS := "definitions"
  const DEFS := "$defs"
  const REF := "$ref"
  const OLD_PREFIX := "#/definitions/"
  const NEW_PREFIX := "#/$defs/"

  // ---------- Height ----------

  ghost function Greatest(heights: set<nat>): (g: nat)
    ensures forall h <- heights :: h <= g
    ensures heights != {} ==> g in heights
  {
    if heights == {} then 0
    else
      var some :| some in heights;
      var other := Greatest(heights - {some});
      assert forall h <- heights :: h == some || h in heights - {some};
      if other <= some then some else other
  }

  ghost function Height(j: Json): nat {
    match j
    case Array(items) => 1 + Greatest(set i | 0 <= i < |items| :: Height(items[i]))
    case Object(fields) => 1 + Greatest(set k <- fields.Keys :: Height(fields[k]))
    case _ => 0
  }

  lemma ItemLower(items: seq<Json>, i: nat)
    requires i < |items|
    ensures Height(items[i]) < Height(Array(items))
  {
    var heights := set n | 0 <= n < |items| :: Height(items[n]);
    assert Height(Array(items)) == 1 + Greatest(heights);
    assert Height(items[i]) in heights;
  }

  lemma FieldLower(fields: Fields, k: string)
    requires k in fields
    ensures Height(fields[k]) < Height(Object(fields))
  {
    var heights := set n <- fields.Keys :: Height(fields[n]);
    assert Height(Object(fields)) == 1 + Greatest(heights);
    assert Height(fields[k]) in heights;
  }

  /** An object is lower than `h` when all its fields are lower by one. */
  lemma ObjectLower(fields: Fields, h: nat)
    requires 0 < h && forall k <- fields :: Height(fields[k]) < h
    ensures Height(Object(fields)) <= h
  {
    var heights := set k <- fields.Keys :: Height(fields[k]);
    assert Height(Object(fields)) == 1 + Greatest(heights);
    if fields.Keys != {} {
      var k :| k in fields.Keys;
      assert Height(fields[k]) in heights;
      assert Greatest(heights) in heights;
    } else {
      assert heights == {};
    }
  }

  // ---------- Rewriting ----------

  /** The definitions join `$defs`: existing entries win, a new `$defs` is whatever `definitions` was, and when
    * either is not an object beside an existing `$defs` the definitions are dropped. */
  function MergedDefs(fields: Fields, definitions: Json): Fields {
    if DEFS !in fields then fields[DEFS := definitions]
    else if fields[DEFS].Object? && definitions.Object? then
      fields[DEFS := Object(definitions.fields + fields[DEFS].fields)]
    else fields
  }

  function Moved(fields: Fields): Fields {
    if DEFINITIONS in fields then MergedDefs(fields - {DEFINITIONS}, fields[DEFINITIONS]) else fields
  }

  function NewReference(reference: string): string {
    if OLD_PREFIX <= reference then NEW_PREFIX + reference[|OLD_PREFIX|..] else reference
  }

  function Rereferenced(fields: Fields): Fields {
    if REF in fields && fields[REF].Str? then fields[REF := Str(NewReference(fields[REF].text))] else fields
  }

  /** The fields of an object before its children are rewritten. */
  function Prepared(fields: Fields): Fields {
    Rereferenced(Moved(fields))
  }

  /** Moving subtrees never makes a child as high as its object was. */
  lemma PreparedLower(fields: Fields, k: string)
    requires k in Prepared(fields)
    ensures Height(Prepared(fields)[k]) < Height(Object(fields))
  {
    var h := Height(Object(fields));
    forall n <- fields ensures Height(fields[n]) < h {
      FieldLower(fields, n);
    }
    if DEFINITIONS in fields && DEFS in fields && fields[DEFS].Object? && fields[DEFINITIONS].Object? {
      var definitions, existing := fields[DEFINITIONS].fields, fields[DEFS].fields;
      var joined := definitions + existing;
      var most := if Height(fields[DEFINITIONS]) < Height(fields[DEFS]) then Height(fields[DEFS])
                  else Height(fields[DEFINITIONS]);
      forall n <- joined ensures Height(joined[n]) < most {
        if n in existing {
          FieldLower(existing, n);
        } else {
          FieldLower(definitions, n);
        }
      }
      ObjectLower(joined, most);
    }
  }

  function Rewrite(j: Json): Json
    decreases Height(j)
  {
    match j
    case Object(fields) =>
      var prepared := Prepared(fields);
      assert forall k <- prepared :: Height(prepared[k]) < Height(j) by {
        forall k <- prepared ensures Height(prepared[k]) < Height(j) {
          PreparedLower(fields, k);
        }
      }
      Object(map k <- prepared :: Rewrite(prepared[k]))
    case Array(items) =>
      assert forall i | 0 <= i < |items| :: Height(items[i]) < Height(j) by {
        forall i | 0 <= i < |items| ensures Height(items[i]) < Height(j) {
          ItemLower(items, i);
        }
      }
      Array(seq(|items|, i requires 0 <= i < |items| => Rewrite(items[i])))
    case _ => j
  }

  // ---------- In place ----------

  /** The existing entries and the definitions that do not remain to be merged. */
  ghost function MergedBut(existing: Fields, definitions: Fields, remaining: set<string>): Fields {
    (map k | k in definitions && k !in remaining :: definitions[k]) + existing
  }

  lemma OneMerged(existing: Fields, definitions: Fields, remaining: set<string>, key: string)
    requires key in remaining && key in definitions
    ensures var joined := MergedBut(existing, definitions, remaining);
            MergedBut(existing, definitions, remaining - {key}) ==
            if key in joined then joined else joined[key := definitions[key]]
  {
  }

  lemma NothingMerged(existing: Fields, definitions: Fields)
    ensures MergedBut(existing, definitions, definitions.Keys) == existing
  {
  }

  lemma NothingRemains(existing: Fields, definitions: Fields)
    ensures MergedBut(existing, definitions, {}) == definitions + existing
  {
    assert (map k | k in definitions && k !in {} :: definitions[k]) == definitions;
  }

  method MergeDefs(map_: Fields, definitions: Json) returns (r: Fields)
    ensures r == MergedDefs(map_, definitions)
  {
    if DEFS !in map_ {
      return map_[DEFS := definitions];
    }
    if !map_[DEFS].Object? || !definitions.Object? {
      return map_;
    }
    var existing := map_[DEFS].fields;
    var remaining := definitions.fields.Keys;
    NothingMerged(existing, definitions.fields);
    hide MergedBut;
    while remaining != {}
      invariant remaining <= definitions.fields.Keys
      invariant existing == MergedBut(map_[DEFS].fields, definitions.fields, remaining)
      decreases |remaining|
    {
      var key :| key in remaining;
      OneMerged(map_[DEFS].fields, definitions.fields, remaining, key);
      if key !in existing {
        existing := existing[key := definitions.fields[key]];
      }
      remaining := remaining - {key};
    }
    NothingRemains(map_[DEFS].fields, definitions.fields);
    r := map_[DEFS := Object(existing)];
  }

  method PrepareObject(fields: Fields) returns (map_: Fields)
    ensures map_ == Prepared(fields)
  {
    map_ := fields;
    if DEFINITIONS in map_ {
      map_ := MergeDefs(map_ - {DEFINITIONS}, map_[DEFINITIONS]);
    }
    if REF in map_ && map_[REF].Str? && OLD_PREFIX <= map_[REF].text {
      map_ := map_[REF := Str(NEW_PREFIX + map_[REF].text[|OLD_PREFIX|..])];
    }
  }

  method RewriteJsonSchemaRefs(value: Json) returns (r: Json)
    ensures r == Rewrite(value)
    decreases Height(value), 1
  {
    match value {
      case Object(fields) =>
        var map_ := PrepareObject(fields);
        r := RewriteChildren(map_, value);
      case Array(items) => r := RewriteItems(items);
      case _ => r := value;
    }
  }

  method RewriteChildren(map_: Fields, ghost whole: Json) returns (r: Json)
    requires whole.Object? && map_ == Prepared(whole.fields)
    ensures r == Rewrite(whole)
    decreases Height(whole), 0
  {
    hide Prepared, Height;
    var children: Fields := map[];
    var remaining := map_.Keys;
    while remaining != {}
      invariant remaining <= map_.Keys && children.Keys == map_.Keys - remaining
      invariant forall k <- children :: children[k] == Rewrite(map_[k])
      decreases |remaining|
    {
      var key :| key in remaining;
      PreparedLower(whole.fields, key);
      var child := RewriteJsonSchemaRefs(map_[key]);
      children, remaining := children[key := child], remaining - {key};
    }
    RewrittenChildren(whole.fields, children);
    r := Object(children);
  }

  lemma RewrittenChildren(fields: Fields, children: Fields)
    requires children.Keys == Prepared(fields).Keys
    requires forall k <- children :: children[k] == Rewrite(Prepared(fields)[k])
    ensures Rewrite(Object(fields)) == Object(children)
  {
    assert Rewrite(Object(fields)).fields == children;
  }

  method RewriteItems(items: seq<Json>) returns (r: Json)
    ensures r == Rewrite(Array(items))
    decreases Height(Array(items)), 0
  {
    hide Height;
    var rewritten := [];
    for i := 0 to |items|
      invariant |rewritten| == i && forall n | 0 <= n < i :: rewritten[n] == Rewrite(items[n])
    {
      ItemLower(items, i);
      var item := RewriteJsonSchemaRefs(items[i]);
      rewritten := rewritten + [item];
    }
    r := Array(rewritten);
  }

  // ---------- A fixpoint ----------

  /** At every depth: no `definitions` key, and no reference into `#/definitions/`. */
  predicate NoLegacy(j: Json) {
    match j
    case Object(fields) =>
      && DEFINITIONS !in fields
      && (REF in fields && fields[REF].Str? ==> !(OLD_PREFIX <= fields[REF].text))
      && forall k <- fields.Keys :: NoLegacy(fields[k])
    case Array(items) => forall i | 0 <= i < |items| :: NoLegacy(items[i])
    case _ => true
  }

  lemma {:induction false} RewriteLeavesNoLegacy(j: Json)
    ensures NoLegacy(Rewrite(j))
    decreases Height(j)
  {
    match j
    case Object(fields) =>
      var prepared := Prepared(fields);
      forall k <- prepared ensures NoLegacy(Rewrite(prepared[k])) {
        PreparedLower(fields, k);
        RewriteLeavesNoLegacy(prepared[k]);
      }
      if REF in prepared && prepared[REF].Str? {
        assert NEW_PREFIX[2] != OLD_PREFIX[2];
        assert Rewrite(prepared[REF]) == prepared[REF];
      }
    case Array(items) =>
      forall i | 0 <= i < |items| ensures NoLegacy(Rewrite(items[i])) {
        ItemLower(items, i);
        RewriteLeavesNoLegacy(items[i]);
      }
    case _ =>
  }

  lemma {:induction false} NoLegacyIsFixed(j: Json)
    requires NoLegacy(j)
    ensures Rewrite(j) == j
    decreases Height(j)
  {
    match j
    case Object(fields) =>
      assert Prepared(fields) == fields;
      forall k <- fields ensures Rewrite(fields[k]) == fields[k] {
        FieldLower(fields, k);
        NoLegacyIsFixed(fields[k]);
      }
    case Array(items) =>
      forall i | 0 <= i < |items| ensures Rewrite(items[i]) == items[i] {
        ItemLower(items, i);
        NoLegacyIsFixed(items[i]);
      }
    case _ =>
  }

  /** Rewriting reaches a fixpoint at once, and leaves a schema alone exactly when it has nothing to rewrite. */
  lemma RewriteIsAFixpoint(j: Json)
    ensures NoLegacy(Rewrite(j)) && Rewrite(Rewrite(j)) == Rewrite(j)
    ensures Rewrite(j) == j <==> NoLegacy(j)
  {
    RewriteLeavesNoLegacy(j);
    NoLegacyIsFixed(Rewrite(j));
    if NoLegacy(j) {
      NoLegacyIsFixed(j);
    }
  }

  // ---------- Parameter names ----------

  const PROPERTIES := "properties"

  /** The properties of an object schema, at whatever depth it stands, keep their names exactly when none of them is
    * named `definitions`; and then each is rewritten in its place, but for a string under `$ref`, which is taken
    * for a reference. */
  lemma PropertyNamesKeptIff(fields: Fields)
    requires PROPERTIES in fields && fields[PROPERTIES].Object?
    ensures var properties, rewritten := fields[PROPERTIES].fields, Rewrite(Object(fields));
            && rewritten.Object? && PROPERTIES in rewritten.fields && rewritten.fields[PROPERTIES].Object?
            && (rewritten.fields[PROPERTIES].fields.Keys == properties.Keys <==> DEFINITIONS !in properties)
            && (DEFINITIONS !in properties ==>
                  forall name <- properties | name == REF ==> !properties[name].Str? ::
                    rewritten.fields[PROPERTIES].fields[name] == Rewrite(properties[name]))
  {
    var properties := fields[PROPERTIES].fields;
    PropertiesStay(fields);
    var prepared := Prepared(properties);
    assert Rewrite(fields[PROPERTIES]).fields.Keys == prepared.Keys;
    assert DEFINITIONS !in prepared;
    assert DEFINITIONS !in properties ==> prepared.Keys == properties.Keys;
  }

  lemma PropertiesStay(fields: Fields)
    requires PROPERTIES in fields
    ensures PROPERTIES in Rewrite(Object(fields)).fields
    ensures Rewrite(Object(fields)).fields[PROPERTIES] == Rewrite(fields[PROPERTIES])
  {
    assert |PROPERTIES| == 10 && |DEFINITIONS| == 11 && |DEFS| == 5 && |REF| == 4;
    var prepared := Prepared(fields);
    assert PROPERTIES in prepared && prepared[PROPERTIES] == fields[PROPERTIES];
  }

  /** A tool whose one parameter is named `definitions` loses it and gains one named `$defs`. */
  lemma ParameterNamedDefinitionsIsRenamed(schema: Json)
    ensures var tool := map[PROPERTIES := Object(map[DEFINITIONS := schema])];
            var rewritten := Rewrite(Object(tool)).fields;
            PROPERTIES in rewritten && rewritten[PROPERTIES] == Object(map[DEFS := Rewrite(schema)])
  {
    var properties := map[DEFINITIONS := schema];
    PropertiesStay(map[PROPERTIES := Object(properties)]);
    assert properties - {DEFINITIONS} == map[];
    assert Prepared(properties) == map[DEFS := schema];
    assert Rewrite(Object(properties)).fields == map[DEFS := Rewrite(schema)];
  }

  // ---------- References ----------

  function Split(path: string): seq<string>
    decreases |path|
  {
    match Find(path, "/")
    case None => [path]
    case Some(i) => [path[..i]] + Split(path[i + 1..])
  }

  function Unescape(token: string): string {
    if |token| >= 2 && token[0] == '~' && token[1] == '1' then "/" + Unescape(token[2..])
    else if |token| >= 2 && token[0] == '~' && token[1] == '0' then "~" + Unescape(token[2..])
    else if token == "" then ""
    else [token[0]] + Unescape(token[1..])
  }

  function UnescapeAll(tokens: seq<string>): seq<string> {
    if tokens == [] then [] else [Unescape(tokens[0])] + UnescapeAll(tokens[1..])
  }

  /** The tokens of a JSON pointer in a same-document reference. */
  function Tokens(reference: string): Option<seq<string>> {
    if reference == "#" then Some([])
    else if "#/" <= reference then Some(UnescapeAll(Split(reference[2..])))
    else None
  }

  predicate Digits(token: string) {
    forall i | 0 <= i < |token| :: '0' <= token[i] <= '9'
  }

  function Value(digits: string): nat
    requires Digits(digits)
  {
    if digits == "" then 0
    else Value(digits[..|digits| - 1]) * 10 + (digits[|digits| - 1] as int - '0' as int)
  }

  /** An array index: decimal digits without a leading zero. */
  function Index(token: string): Option<nat> {
    if token != "" && Digits(token) && (token == "0" || token[0] != '0') then Some(Value(token)) else None
  }

  function Resolve(j: Json, tokens: seq<string>): Option<Json>
    decreases |tokens|
  {
    if tokens == [] then Some(j)
    else match j
      case Object(fields) => if tokens[0] in fields then Resolve(fields[tokens[0]], tokens[1..]) else None
      case Array(items) =>
        var i := Index(tokens[0]);
        if i.Some? && i.value < |items| then Resolve(items[i.value], tokens[1..]) else None
      case _ => None
  }

  function ResolveReference(j: Json, reference: string): Option<Json> {
    match Tokens(reference)
    case Some(tokens) => Resolve(j, tokens)
    case None => None
  }

  function RewriteFound(found: Option<Json>): Option<Json> {
    if found.Some? then Some(Rewrite(found.value)) else None
  }

  /** The path meets no `$defs` that definitions join, and no reference string as its target. */
  predicate AvoidsKeywords(j: Json, tokens: seq<string>)
    decreases |tokens|
  {
    tokens == []
    || match j
       case Object(fields) =>
         (tokens[0] == DEFS ==> DEFINITIONS !in fields)
         && (tokens[0] in fields ==>
               !(tokens[0] == REF && fields[REF].Str?) && AvoidsKeywords(fields[tokens[0]], tokens[1..]))
       case Array(items) =>
         var i := Index(tokens[0]);
         i.Some? && i.value < |items| ==> AvoidsKeywords(items[i.value], tokens[1..])
       case _ => true
  }

  /** Where a path leads when every object on it is prepared before it is looked into. */
  function Follow(j: Json, tokens: seq<string>): Option<Json>
    decreases |tokens|
  {
    if tokens == [] then Some(j)
    else match j
      case Object(fields) =>
        var prepared := Prepared(fields);
        if tokens[0] in prepared then Follow(prepared[tokens[0]], tokens[1..]) else None
      case Array(items) =>
        var i := Index(tokens[0]);
        if i.Some? && i.value < |items| then Follow(items[i.value], tokens[1..]) else None
      case _ => None
  }

  /** Resolving in the rewritten value is following in the original, for every path. */
  lemma {:induction false} ResolveRewritten(j: Json, tokens: seq<string>)
    ensures Resolve(Rewrite(j), tokens) == RewriteFound(Follow(j, tokens))
    decreases |tokens|
  {
    if tokens != [] {
      hide Prepared, Index;
      match j
      case Object(fields) =>
        if tokens[0] in Prepared(fields) {
          ResolveRewritten(Prepared(fields)[tokens[0]], tokens[1..]);
        }
      case Array(items) =>
        var i := Index(tokens[0]);
        if i.Some? && i.value < |items| {
          ResolveRewritten(items[i.value], tokens[1..]);
        }
      case _ =>
    }
  }

  /** Preparing an object leaves its other keys alone, and `$defs` when no definitions join it. */
  lemma PreparedKeeps(fields: Fields, key: string)
    requires key != DEFINITIONS && (key == DEFS ==> DEFINITIONS !in fields)
    requires !(key == REF && REF in fields && fields[REF].Str?)
    ensures key in Prepared(fields) <==> key in fields
    ensures key in fields ==> Prepared(fields)[key] == fields[key]
  {
  }

  /** A path without the key that moves leads to the same place. */
  lemma {:induction false} FollowUndisturbed(j: Json, tokens: seq<string>)
    requires AvoidsKeywords(j, tokens) && DEFINITIONS !in tokens
    ensures Follow(j, tokens) == Resolve(j, tokens)
    decreases |tokens|
  {
    if tokens != [] {
      hide Prepared, Index;
      match j
      case Object(fields) =>
        PreparedKeeps(fields, tokens[0]);
        if tokens[0] in fields {
          FollowUndisturbed(fields[tokens[0]], tokens[1..]);
        }
      case Array(items) =>
        var i := Index(tokens[0]);
        if i.Some? && i.value < |items| {
          FollowUndisturbed(items[i.value], tokens[1..]);
        }
      case _ =>
    }
  }

  /** No path leads through a key that a rewritten value does not have. */
  lemma {:induction false} NoWayThroughDefinitions(j: Json, tokens: seq<string>)
    requires NoLegacy(j) && DEFINITIONS in tokens
    ensures Resolve(j, tokens).None?
    decreases |tokens|
  {
    hide Value;
    match j
    case Object(fields) =>
      if tokens[0] in fields {
        NoWayThroughDefinitions(fields[tokens[0]], tokens[1..]);
      }
    case Array(items) =>
      var i := Index(tokens[0]);
      if i.Some? && i.value < |items| {
        assert DEFINITIONS[0] == 'd';
        NoWayThroughDefinitions(items[i.value], tokens[1..]);
      }
    case _ =>
  }

  lemma SplitFirst(head: string, path: string)
    requires '/' !in head
    ensures Split(head + "/" + path) == [head] + Split(path)
  {
    var whole := head + "/" + path;
    assert whole[|head|..|head| + 1] == "/";
    assert At(whole, "/", |head|);
    forall i: nat | i < |head| ensures !At(whole, "/", i) {
      assert whole[i] == head[i];
      assert i + 1 <= |whole| ==> whole[i..i + 1][0] == whole[i];
    }
    assert Find(whole, "/") == Some(|head|);
    assert whole[..|head|] == head && whole[|head| + 1..] == path;
  }

  lemma {:induction false} UnescapeWithoutTilde(token: string)
    requires '~' !in token
    ensures Unescape(token) == token
  {
    if token != "" {
      assert token[0] in token;
      UnescapeWithoutTilde(token[1..]);
    }
  }

  lemma UnescapeFirst(token: string, rest: seq<string>)
    ensures UnescapeAll([token] + rest) == [Unescape(token)] + UnescapeAll(rest)
  {
    assert ([token] + rest)[1..] == rest;
  }

  lemma TokensOf(path: string)
    ensures Tokens("#/" + path) == Some(UnescapeAll(Split(path)))
  {
    hide Split, UnescapeAll;
    assert ("#/" + path)[2..] == path;
  }

  lemma PointerTokens(head: string, path: string)
    requires '/' !in head && '~' !in head
    ensures Tokens("#/" + head + "/" + path) == Some([head] + UnescapeAll(Split(path)))
  {
    hide *;
    SplitFirst(head, path);
    UnescapeFirst(head, Split(path));
    UnescapeWithoutTilde(head);
    Regroup("#/", head, "/");
    Regroup("#/", head + "/", path);
    TokensOf(head + "/" + path);
  }

  lemma PrefixParts()
    ensures '/' !in DEFINITIONS && '~' !in DEFINITIONS && "#/" + DEFINITIONS + "/" == OLD_PREFIX
    ensures '/' !in DEFS && '~' !in DEFS && "#/" + DEFS + "/" == NEW_PREFIX
  {
  }

  /** The two spellings of a reference differ in their first token only. */
  lemma ReferenceTokens(path: string)
    ensures Tokens(OLD_PREFIX + path) == Some([DEFINITIONS] + UnescapeAll(Split(path)))
    ensures Tokens(NEW_PREFIX + path) == Some([DEFS] + UnescapeAll(Split(path)))
  {
    hide *;
    PrefixParts();
    PointerTokens(DEFINITIONS, path);
    PointerTokens(DEFS, path);
  }

  /** The definitions of a root object by name, as the rewritten `$defs` holds them: those of `$defs` win. */
  function Joined(fields: Fields): Fields
    requires DEFINITIONS in fields && fields[DEFINITIONS].Object?
    requires DEFS in fields ==> fields[DEFS].Object?
  {
    fields[DEFINITIONS].fields + if DEFS in fields then fields[DEFS].fields else map[]
  }

  lemma NewDefs(fields: Fields)
    requires DEFINITIONS in fields && fields[DEFINITIONS].Object?
    requires DEFS in fields ==> fields[DEFS].Object?
    ensures var rewritten := Rewrite(Object(fields));
            && rewritten.Object? && DEFS in rewritten.fields
            && rewritten.fields[DEFS] == Rewrite(Object(Joined(fields)))
  {
    var prepared := Prepared(fields);
    assert fields[DEFINITIONS].fields + map[] == fields[DEFINITIONS].fields;
    assert DEFS in prepared && prepared[DEFS] == Object(Joined(fields));
  }

  /** A `$defs` that is not an object stays, and the definitions are dropped. */
  lemma KeptDefs(fields: Fields)
    requires DEFINITIONS in fields && DEFS in fields && !fields[DEFS].Object?
    ensures var rewritten := Rewrite(Object(fields));
            rewritten.Object? && DEFS in rewritten.fields && rewritten.fields[DEFS] == Rewrite(fields[DEFS])
  {
    var prepared := Prepared(fields);
    assert DEFS in prepared && prepared[DEFS] == fields[DEFS];
  }

  /** What any reference below `$defs` resolves to in the rewritten schema. */
  lemma NewReferenceResolves(fields: Fields, path: string)
    requires DEFINITIONS in fields && fields[DEFINITIONS].Object?
    requires DEFS in fields ==> fields[DEFS].Object?
    ensures ResolveReference(Rewrite(Object(fields)), NEW_PREFIX + path) ==
            RewriteFound(Follow(Object(Joined(fields)), UnescapeAll(Split(path))))
  {
    var tokens := UnescapeAll(Split(path));
    ReferenceTokens(path);
    NewDefs(fields);
    ResolveRewritten(Object(Joined(fields)), tokens);
    hide Split, UnescapeAll, Rewrite, Joined, Follow;
    assert ([DEFS] + tokens)[1..] == tokens;
  }

  lemma OldReferenceResolves(fields: Fields, path: string)
    requires DEFINITIONS in fields
    ensures ResolveReference(Object(fields), OLD_PREFIX + path) ==
            Resolve(fields[DEFINITIONS], UnescapeAll(Split(path)))
  {
    ReferenceTokens(path);
    hide Split, UnescapeAll;
    var tokens := UnescapeAll(Split(path));
    assert ([DEFINITIONS] + tokens)[1..] == tokens;
  }

  lemma PathIsNotEmpty(path: string)
    ensures UnescapeAll(Split(path)) != []
  {
  }

  /** A path whose first name `$defs` does not have leads into the joined table as it leads into the definitions. */
  lemma ResolvesInJoined(fields: Fields, tokens: seq<string>)
    requires DEFINITIONS in fields && fields[DEFINITIONS].Object?
    requires DEFS in fields ==> fields[DEFS].Object?
    requires tokens != [] && (DEFS in fields ==> tokens[0] !in fields[DEFS].fields)
    ensures Resolve(Object(Joined(fields)), tokens) == Resolve(fields[DEFINITIONS], tokens)
  {
  }

  /** For a reference into `definitions` at any depth that resolved, whose name `$defs` does not have and whose path
    * avoids the other keywords: `#/$defs/X` in the rewritten schema is the rewrite of what `#/definitions/X` was
    * exactly when no token of X is itself `definitions`. Otherwise it dangles. */
  lemma ReferenceMeaningKept(fields: Fields, path: string)
    requires DEFINITIONS in fields && fields[DEFINITIONS].Object?
    requires DEFS in fields ==> fields[DEFS].Object? && UnescapeAll(Split(path))[0] !in fields[DEFS].fields
    requires AvoidsKeywords(Object(Joined(fields)), UnescapeAll(Split(path)))
    ensures var before := ResolveReference(Object(fields), OLD_PREFIX + path);
            var after := ResolveReference(Rewrite(Object(fields)), NewReference(OLD_PREFIX + path));
            && (DEFINITIONS !in UnescapeAll(Split(path)) ==> after == RewriteFound(before))
            && (DEFINITIONS in UnescapeAll(Split(path)) ==> after.None?)
            && (before.Some? ==> (after == RewriteFound(before) <==> DEFINITIONS !in UnescapeAll(Split(path))))
  {
    var tokens := UnescapeAll(Split(path));
    assert (OLD_PREFIX + path)[|OLD_PREFIX|..] == path;
    OldReferenceResolves(fields, path);
    PathIsNotEmpty(path);
    ResolvesInJoined(fields, tokens);
    hide Split, UnescapeAll, Rewrite, Joined, ResolveReference;
    NewReferenceResolves(fields, path);
    var table := Object(Joined(fields));
    if DEFINITIONS in tokens {
      ResolveRewritten(table, tokens);
      RewriteLeavesNoLegacy(table);
      NoWayThroughDefinitions(Rewrite(table), tokens);
    } else {
      FollowUndisturbed(table, tokens);
    }
  }

  /** Whether looking `name` up in a root's own `$defs` gives nothing that differs from its definition. */
  predicate Unshadowed(fields: Fields, name: string)
    requires DEFINITIONS in fields && fields[DEFINITIONS].Object? && name in fields[DEFINITIONS].fields
  {
    var definition := fields[DEFINITIONS].fields[name];
    if DEFS !in fields then true
    else
      match fields[DEFS]
      case Object(existing) => name in existing ==> Rewrite(existing[name]) == Rewrite(definition)
      case Array(items) =>
        var i := Index(name);
        i.Some? && i.value < |items| && Rewrite(items[i.value]) == Rewrite(definition)
      case _ => false
  }

  lemma ResolveName(j: Json, name: string)
    requires name !in {DEFINITIONS, DEFS, REF}
    ensures Resolve(Rewrite(j), [name]) == RewriteFound(Resolve(j, [name]))
  {
    ResolveRewritten(j, [name]);
    FollowUndisturbed(j, [name]);
  }

  /** For a plain name the condition is exact: the meaning is kept exactly when the root has no `$defs`, or looking the
    * name up there gives nothing else. Otherwise the reference means the other definition or dangles. */
  lemma ReferenceMeaningKeptIff(fields: Fields, name: string)
    requires DEFINITIONS in fields && fields[DEFINITIONS].Object? && name in fields[DEFINITIONS].fields
    requires name !in {DEFINITIONS, DEFS, REF}
    ensures Resolve(Rewrite(Object(fields)), [DEFS, name]) == Some(Rewrite(fields[DEFINITIONS].fields[name]))
       <==> Unshadowed(fields, name)
  {
    assert [DEFS, name][1..] == [name] && [name][1..] == [];
    if DEFS in fields && !fields[DEFS].Object? {
      KeptDefs(fields);
      ResolveName(fields[DEFS], name);
      hide Rewrite, Index;
    } else {
      NewDefs(fields);
      ResolveName(Object(Joined(fields)), name);
      assert Resolve(Object(Joined(fields)), [name]) == Some(Joined(fields)[name]);
      hide Rewrite;
    }
  }

  /** What the joined table holds under a definition named `$ref` or `$defs`: a string `$ref` is taken for a
    * reference, and `$defs` takes in a definition named `definitions`. */
  function HeldReserved(joined: Fields, name: string): Json
    requires name in joined && name in {DEFS, REF}
  {
    if name == REF && joined[REF].Str? then Str(NewReference(joined[REF].text))
    else if name == DEFS && DEFINITIONS in joined && joined[DEFINITIONS].Object? && joined[DEFS].Object?
    then Object(joined[DEFINITIONS].fields + joined[DEFS].fields)
    else joined[name]
  }

  /** A definition under a reserved name is read as a keyword of the joined table. */
  lemma ReservedNameResolves(fields: Fields, name: string)
    requires DEFINITIONS in fields && fields[DEFINITIONS].Object? && name in fields[DEFINITIONS].fields
    requires DEFS in fields ==> fields[DEFS].Object?
    requires name in {DEFS, REF}
    ensures Resolve(Rewrite(Object(fields)), [DEFS, name]) == Some(Rewrite(HeldReserved(Joined(fields), name)))
  {
    NewDefs(fields);
    var joined := Joined(fields);
    HeldIsPrepared(joined, name);
    hide Prepared, Joined, HeldReserved, Rewrite;
    assert [DEFS, name][1..] == [name] && [name][1..] == [];
    var table := Rewrite(Object(fields)).fields[DEFS];
    assert Resolve(table, [name]) == Some(Rewrite(HeldReserved(joined, name)));
  }

  lemma NewReferenceDiffers(reference: string)
    ensures NewReference(reference) == reference <==> !(OLD_PREFIX <= reference)
  {
    assert NEW_PREFIX[2] != OLD_PREFIX[2];
  }

  /** A definition named `$ref` keeps its meaning exactly when it is not a string that looks like a reference into
    * `definitions`. */
  lemma DefinitionNamedRefKeptIff(fields: Fields)
    requires DEFINITIONS in fields && fields[DEFINITIONS].Object? && REF in fields[DEFINITIONS].fields
    requires DEFS in fields ==> fields[DEFS].Object? && REF !in fields[DEFS].fields
    ensures var definition := fields[DEFINITIONS].fields[REF];
            (Resolve(Rewrite(Object(fields)), [DEFS, REF]) == Some(Rewrite(definition))
             <==> !(definition.Str? && OLD_PREFIX <= definition.text))
  {
    ReservedNameResolves(fields, REF);
    var definition := fields[DEFINITIONS].fields[REF];
    assert Joined(fields)[REF] == definition;
    if definition.Str? {
      NewReferenceDiffers(definition.text);
    }
  }

  /** What joins the definition named `$defs`: the definitions named `definitions` of either table, those of `$defs`
    * first. */
  function Joining(fields: Fields): Fields
    requires DEFINITIONS in fields && fields[DEFINITIONS].Object?
    requires DEFS in fields ==> fields[DEFS].Object?
  {
    var joined := Joined(fields);
    if DEFINITIONS in joined && joined[DEFINITIONS].Object? then joined[DEFINITIONS].fields else map[]
  }

  /** A definition named `$defs` keeps its meaning exactly when it is not an object or nothing new joins it. */
  lemma DefinitionNamedDefsKeptIff(fields: Fields)
    requires DEFINITIONS in fields && fields[DEFINITIONS].Object? && DEFS in fields[DEFINITIONS].fields
    requires DEFS in fields ==> fields[DEFS].Object? && DEFS !in fields[DEFS].fields
    requires DEFINITIONS !in Joining(fields) && DEFS !in Joining(fields)
    ensures var definition := fields[DEFINITIONS].fields[DEFS];
            (Resolve(Rewrite(Object(fields)), [DEFS, DEFS]) == Some(Rewrite(definition))
             <==> (definition.Object? ==> Joining(fields).Keys <= definition.fields.Keys))
  {
    ReservedNameResolves(fields, DEFS);
    var definition, joining := fields[DEFINITIONS].fields[DEFS], Joining(fields);
    assert Joined(fields)[DEFS] == definition;
    if definition.Object? {
      var wider := joining + definition.fields;
      assert map[] + definition.fields == definition.fields;
      assert Rewrite(HeldReserved(Joined(fields), DEFS)) == Rewrite(Object(wider));
      if joining.Keys <= definition.fields.Keys {
        assert wider == definition.fields;
      } else {
        var name :| name in joining && name !in definition.fields;
        assert name in Prepared(wider) && name !in Prepared(definition.fields);
        assert name in Rewrite(Object(wider)).fields && name !in Rewrite(definition).fields;
      }
    }
  }

  lemma HeldIsPrepared(joined: Fields, name: string)
    requires name in joined && name in {DEFS, REF}
    ensures var rewritten := Rewrite(Object(joined));
            rewritten.Object? && name in rewritten.fields
            && rewritten.fields[name] == Rewrite(HeldReserved(joined, name))
  {
    var held := Prepared(joined);
    assert name in held && held[name] == HeldReserved(joined, name);
  }

  /** A definition that is itself named `definitions` cannot be referred to after rewriting. */
  lemma DefinitionNamedDefinitionsIsLost(fields: Fields)
    requires DEFINITIONS in fields && fields[DEFINITIONS].Object?
    requires DEFS in fields ==> fields[DEFS].Object?
    ensures Resolve(Rewrite(Object(fields)), [DEFS, DEFINITIONS]).None?
  {
    NewDefs(fields);
    RewriteLeavesNoLegacy(Object(Joined(fields)));
    assert [DEFS, DEFINITIONS][1..] == [DEFINITIONS];
  }
}
