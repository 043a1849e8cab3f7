/** BSON to JSON conversion (crates/fabric-backends/src/mongo.rs, `document_to_json`, `bson_to_json`).
    Library renderings (object ids, decimals, dates, binary, exotic types) are carried as the text the
    library gives. */
module BsonJson {
  import opened Wire
  import opened Numerals

  type Int32 = i: int | -0x8000_0000 <= i < 0x8000_0000

  type Int64 = i: int | -0x8000_0000_0000_0000 <= i < 0x8000_0000_0000_0000

  datatype Float = Finite(value: real) | Infinite(negative: bool) | NaN

  datatype Bson =
    | Double(number: Float)
    | Text(text: string)
    | Boolean(flag: bool)
    | Null
    | I32(int32: Int32)
    | I64(int64: Int64)
    | ObjectId(hex: string)
    | Decimal128(rendered: string)
    | DateTime(rfc3339: Option<string>, millis: Int64)
    | Binary(base64: string)
    | Array(items: seq<Bson>)
    | Document(fields: seq<Field>)
    | Exotic(shown: string)

  /** A document keeps its fields in order; should a key recur, the later field is the one that counts. */
  datatype Field = Field(key: string, value: Bson)

  datatype Json =
    | JNull
    | JBool(flag: bool)
    | JInt(value: int)
    | JFloat(number: real)
    | JString(text: string)
    | JArray(items: seq<Json>)
    | JObject(members: map<string, Json>)

  // -- What is computed ---------------------------------------------------------------

  function ToJson(b: Bson): Json
    decreases b, 1
  {
    match b
    case Double(Finite(value)) => JFloat(value)
    case Double(_) => JNull
    case Text(text) => JString(text)
    case Boolean(flag) => JBool(flag)
    case Null => JNull
    case I32(n) => JInt(n)
    case I64(n) => JString(Decimal(n))
    case ObjectId(hex) => JString(hex)
    case Decimal128(rendered) => JString(rendered)
    case DateTime(Some(text), _) => JString(text)
    case DateTime(None, millis) => JString(Decimal(millis))
    case Binary(base64) => JString(base64)
    case Array(items) => JArray(ItemsJson(items))
    case Document(fields) => JObject(FieldsJson(fields))
    case Exotic(shown) => JString(shown)
  }

  function ItemsJson(items: seq<Bson>): (r: seq<Json>)
    ensures |r| == |items|
    decreases items, 0
  {
    if items == [] then [] else ItemsJson(items[..|items| - 1]) + [ToJson(items[|items| - 1])]
  }

  function FieldsJson(fields: seq<Field>): map<string, Json>
    decreases fields, 0
  {
    if fields == [] then map[]
    else FieldsJson(fields[..|fields| - 1])[fields[|fields| - 1].key := ToJson(fields[|fields| - 1].value)]
  }

  function DocumentJson(fields: seq<Field>): Json {
    JObject(FieldsJson(fields))
  }

  // -- The code -------------------------------------------------------------------------

  /** Converts a value; recursion ends on every finite tree. */
  method ConvertValue(b: Bson) returns (j: Json)
    ensures j == ToJson(b)
    decreases b, 1
  {
    match b {
      case Array(items) =>
        var converted: seq<Json> := [];
        for i := 0 to |items|
          invariant converted == ItemsJson(items[..i])
        {
          var item := ConvertValue(items[i]);
          assert items[..i + 1][..i] == items[..i];
          converted := converted + [item];
        }
        assert items[..|items|] == items;
        j := JArray(converted);
      case Document(fields) => j := ConvertDocument(fields);
      case _ => j := ToJson(b);
    }
  }

  /** Inserts field by field into the object. */
  method ConvertDocument(fields: seq<Field>) returns (j: Json)
    ensures j == JObject(FieldsJson(fields))
    decreases fields, 0
  {
    var members: map<string, Json> := map[];
    for i := 0 to |fields|
      invariant members == FieldsJson(fields[..i])
    {
      var value := ConvertValue(fields[i].value);
      assert fields[..i + 1][..i] == fields[..i];
      members := members[fields[i].key := value];
    }
    assert fields[..|fields|] == fields;
    j := JObject(members);
  }

  // -- Structure at every depth -----------------------------------------------------------

  datatype Step = Index(i: nat) | Key(key: string)

  /** The field that counts under a key. */
  function Lookup(fields: seq<Field>, key: string): Option<Bson> {
    if fields == [] then None
    else if fields[|fields| - 1].key == key then Some(fields[|fields| - 1].value)
    else Lookup(fields[..|fields| - 1], key)
  }

  /** It is the last one with that key. */
  lemma {:induction false} LookupByPlace(fields: seq<Field>, key: string, i: nat)
    requires i < |fields| && fields[i].key == key
    requires forall j :: i < j < |fields| ==> fields[j].key != key
    ensures Lookup(fields, key) == Some(fields[i].value)
    decreases |fields|
  {
    if i < |fields| - 1 {
      LookupByPlace(fields[..|fields| - 1], key, i);
    }
  }

  function BsonStep(b: Bson, step: Step): Option<Bson> {
    match step
    case Index(i) => if b.Array? && i < |b.items| then Some(b.items[i]) else None
    case Key(key) => if b.Document? then Lookup(b.fields, key) else None
  }

  function JsonStep(j: Json, step: Step): Option<Json> {
    match step
    case Index(i) => if j.JArray? && i < |j.items| then Some(j.items[i]) else None
    case Key(key) => if j.JObject? && key in j.members then Some(j.members[key]) else None
  }

  function BsonAt(b: Bson, path: seq<Step>): Option<Bson>
    decreases |path|
  {
    if path == [] then Some(b)
    else match BsonStep(b, path[0]) case None => None case Some(c) => BsonAt(c, path[1..])
  }

  function JsonAt(j: Json, path: seq<Step>): Option<Json>
    decreases |path|
  {
    if path == [] then Some(j)
    else match JsonStep(j, path[0]) case None => None case Some(c) => JsonAt(c, path[1..])
  }

  function Converted(b: Option<Bson>): Option<Json> {
    if b.Some? then Some(ToJson(b.value)) else None
  }

  lemma {:induction false} ItemsKeepPlace(items: seq<Bson>, i: nat)
    requires i < |items|
    ensures ItemsJson(items)[i] == ToJson(items[i])
    decreases |items|
  {
    if i < |items| - 1 {
      ItemsKeepPlace(items[..|items| - 1], i);
    }
  }

  lemma {:induction false} FieldsKeepKeys(fields: seq<Field>, key: string)
    ensures key in FieldsJson(fields) <==> Lookup(fields, key).Some?
    ensures key in FieldsJson(fields) ==> FieldsJson(fields)[key] == ToJson(Lookup(fields, key).value)
    decreases |fields|
  {
    if fields != [] {
      FieldsKeepKeys(fields[..|fields| - 1], key);
    }
  }

  lemma StepCommutes(b: Bson, step: Step)
    ensures JsonStep(ToJson(b), step) == Converted(BsonStep(b, step))
  {
    match step
    case Index(i) =>
      if b.Array? && i < |b.items| {
        ItemsKeepPlace(b.items, i);
      }
    case Key(key) =>
      if b.Document? {
        FieldsKeepKeys(b.fields, key);
      }
  }

  /** Navigation commutes with conversion: along every path, of any length, the JSON tree has a node
      exactly where the BSON tree has one, and it is that node's conversion. So array lengths and
      order and document key sets are preserved at every depth. */
  lemma {:induction false} StructureIsPreserved(b: Bson, path: seq<Step>)
    ensures JsonAt(ToJson(b), path) == Converted(BsonAt(b, path))
    decreases |path|
  {
    if path != [] {
      StepCommutes(b, path[0]);
      if BsonStep(b, path[0]).Some? {
        StructureIsPreserved(BsonStep(b, path[0]).value, path[1..]);
      }
    }
  }

  /** What a scalar is rendered as. */
  ghost predicate Renders(source: Bson, node: Json) {
    match source
    case Double(Finite(value)) => node == JFloat(value)
    case Double(_) => node == JNull
    case Text(text) => node == JString(text)
    case Boolean(flag) => node == JBool(flag)
    case Null => node == JNull
    case I32(n) => node == JInt(n)
    case I64(n) => node.JString? && ReadDecimal(node.text) == Some(n)
    case ObjectId(hex) => node == JString(hex)
    case Decimal128(rendered) => node == JString(rendered)
    case DateTime(Some(text), _) => node == JString(text)
    case DateTime(None, millis) => node.JString? && ReadDecimal(node.text) == Some(millis)
    case Binary(base64) => node == JString(base64)
    case Array(items) => node.JArray? && |node.items| == |items|
    case Document(fields) => node.JObject? && forall key :: key in node.members <==> exists i :: 0 <= i < |fields| && fields[i].key == key
    case Exotic(shown) => node == JString(shown)
  }

  lemma {:induction false} LookupMeansSome(fields: seq<Field>, key: string)
    ensures Lookup(fields, key).Some? <==> exists i :: 0 <= i < |fields| && fields[i].key == key
    decreases |fields|
  {
    if fields != [] {
      LookupMeansSome(fields[..|fields| - 1], key);
    }
  }

  lemma ConversionRenders(b: Bson)
    ensures Renders(b, ToJson(b))
  {
    match b
    case I64(n) => DecimalRoundTrip(n);
    case DateTime(None, millis) => DecimalRoundTrip(millis);
    case Document(fields) =>
      forall key ensures key in FieldsJson(fields) <==> exists i :: 0 <= i < |fields| && fields[i].key == key {
        FieldsKeepKeys(fields, key);
        LookupMeansSome(fields, key);
      }
    case _ =>
  }

  /** At every depth every value, of whatever type, is rendered as it should be: 32-bit integers and finite
      doubles as numbers, other doubles and nulls as null, booleans and texts as themselves, 64-bit integers
      and unprintable dates as strings that read back to them, and the rest as the library's text. */
  lemma EveryValueIsRendered(b: Bson, path: seq<Step>)
    requires BsonAt(b, path).Some?
    ensures JsonAt(ToJson(b), path).Some? && Renders(BsonAt(b, path).value, JsonAt(ToJson(b), path).value)
  {
    StructureIsPreserved(b, path);
    ConversionRenders(BsonAt(b, path).value);
  }

  /** At every depth: a JSON integer stands for a 32-bit integer and nothing else, a JSON float for that
      very finite double, an array for an array of that length, an object for a document with those keys. */
  lemma EveryNodeIsExplained(b: Bson, path: seq<Step>)
    requires JsonAt(ToJson(b), path).Some?
    ensures BsonAt(b, path).Some?
    ensures var source, node := BsonAt(b, path).value, JsonAt(ToJson(b), path).value;
      && (node.JInt? ==> -0x8000_0000 <= node.value < 0x8000_0000 && source == I32(node.value))
      && (node.JFloat? <==> source.Double? && source.number.Finite?)
      && (node.JFloat? ==> source == Double(Finite(node.number)))
      && (node.JArray? <==> source.Array?)
      && (node.JArray? ==> |node.items| == |source.items|)
      && (node.JObject? <==> source.Document?)
      && (node.JObject? ==> forall key :: key in node.members <==> Lookup(source.fields, key).Some?)
  {
    StructureIsPreserved(b, path);
    var source := BsonAt(b, path).value;
    if source.Document? {
      forall key ensures key in FieldsJson(source.fields) <==> Lookup(source.fields, key).Some? {
        FieldsKeepKeys(source.fields, key);
      }
    }
  }

  /** Every 64-bit integer, at whatever depth, is recovered by reading the string it became. */
  lemma LongsAreRecoverable(b: Bson, path: seq<Step>)
    requires BsonAt(b, path).Some? && BsonAt(b, path).value.I64?
    ensures JsonAt(ToJson(b), path).Some? && JsonAt(ToJson(b), path).value.JString?
    ensures ReadDecimal(JsonAt(ToJson(b), path).value.text) == Some(BsonAt(b, path).value.int64)
  {
    StructureIsPreserved(b, path);
    DecimalRoundTrip(BsonAt(b, path).value.int64);
  }

  /** So trees whose conversions agree agree on the 64-bit integers they have in the same place. */
  lemma DistinctLongsNeverCollide(b: Bson, c: Bson, path: seq<Step>)
    requires ToJson(b) == ToJson(c)
    requires BsonAt(b, path).Some? && BsonAt(b, path).value.I64?
    requires BsonAt(c, path).Some? && BsonAt(c, path).value.I64?
    ensures BsonAt(b, path) == BsonAt(c, path)
  {
    LongsAreRecoverable(b, path);
    LongsAreRecoverable(c, path);
  }
}
