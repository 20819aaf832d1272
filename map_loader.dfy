/** The map record of map_loader.py (class MapLoader): the validation that
    `_load_map` runs on a decoded JSON document, and the getters that reshape
    the loaded record. Values are the Python values json.load produces; a
    JSON object is a Python dict, which keeps its keys in document order. */
module MapLoader {

  datatype Option<T> = None | Some(value: T)

  /** A value produced by json.load. JNull is Python's None. */
  datatype Json =
    | JNull
    | JBool(b: bool)
    | JInt(n: int)
    | JFloat(r: real)
    | JString(s: string)
    | JArray(items: seq<Json>)
    | JObject(fields: seq<(string, Json)>)

  /** A dict: its (key, value) pairs in insertion order. */
  type Fields = seq<(string, Json)>

  /** The exceptions the getters and the validation can raise on a malformed record. */
  datatype PyError = KeyError | TypeError | IndexError

  datatype Outcome<T> = Ok(value: T) | Raises(error: PyError)

  // ---------------------------------------------------------------------
  // The Python operations the validation and the getters use.

  predicate HasKey(d: Fields, key: string)
  {
    exists i :: 0 <= i < |d| && d[i].0 == key
  }

  /** d[key] on a dict: the value of the first pair with that key. */
  function Lookup(d: Fields, key: string): (r: Option<Json>)
    ensures r.Some? <==> HasKey(d, key)
    ensures r.Some? ==> exists i :: 0 <= i < |d| && d[i] == (key, r.value)
  {
    if |d| == 0 then None
    else if d[0].0 == key then Some(d[0].1)
    else
      var r := Lookup(d[1..], key);
      assert r.Some? ==> exists i :: 0 <= i < |d[1..]| && d[1..][i] == (key, r.value);
      r
  }

  /** v[key] with a string key: a dict lookup; any other value is not
      subscriptable by a string. */
  function Subscript(v: Json, key: string): (r: Outcome<Json>)
    ensures r.Raises? ==> (r.error == KeyError <==> v.JObject?)
  {
    match v
    case JObject(d) => (match Lookup(d, key) case Some(x) => Ok(x) case None => Raises(KeyError))
    case _ => Raises(TypeError)
  }

  /** v[i] with a non-negative integer index: a value only below len(v). */
  function Index(v: Json, i: nat): (r: Outcome<Json>)
    ensures r.Ok? ==> Len(v).Ok? && i < Len(v).value
    ensures r.Raises? && Len(v).Ok? && !v.JObject? ==> r.error == IndexError && i >= Len(v).value
  {
    match v
    case JArray(items) => if i < |items| then Ok(items[i]) else Raises(IndexError)
    case JString(s) => if i < |s| then Ok(JString([s[i]])) else Raises(IndexError)
    case JObject(_) => Raises(KeyError)   // JSON keys are strings, never the int i
    case _ => Raises(TypeError)
  }

  /** len(v). */
  function Len(v: Json): Outcome<nat>
  {
    match v
    case JArray(items) => Ok(|items|)
    case JString(s) => Ok(|s|)
    case JObject(d) => Ok(|d|)
    case _ => Raises(TypeError)
  }

  /** The elements a for loop (or tuple()) draws from v: list items, the
      one-character strings of a str, or the keys of a dict. */
  function Iterate(v: Json): (r: Outcome<seq<Json>>)
    ensures r.Ok? <==> Len(v).Ok?
    ensures r.Raises? ==> r.error == TypeError
    ensures r.Ok? ==> |r.value| == Len(v).value
  {
    match v
    case JArray(items) => Ok(items)
    case JString(s) => Ok(seq(|s|, i requires 0 <= i < |s| => JString([s[i]])))
    case JObject(d) => Ok(seq(|d|, i requires 0 <= i < |d| => JString(d[i].0)))
    case _ => Raises(TypeError)
  }

  /** isinstance(v, int): bool is a subclass of int in Python. */
  predicate IsInt(v: Json)
  {
    v.JInt? || v.JBool?
  }

  function IntValue(v: Json): int
    requires IsInt(v)
  {
    if v.JInt? then v.n else if v.b then 1 else 0
  }

  // ---------------------------------------------------------------------
  // _validate_map_data

  const RequiredKeys: seq<string> := [
    "matriz", "origen", "destino", "agujerosNegros",
    "estrellasGigantes", "agujerosGusano", "zonasRecarga",
    "celdasCargaRequerida", "cargaInicial", "matrizInicial"]

  /** Why validation raised: the four ValueErrors of the source, or a
      TypeError from len() on a value without a length. */
  datatype Check =
    | Valid
    | MissingKey(key: string)
    | BadMatrixFormat
    | BadDimensions
    | DimensionMismatch
    | Raised(error: PyError)

  /** The first of keys (in list order) that d lacks. */
  function FirstMissing(d: Fields, keys: seq<string>): (r: Option<string>)
    ensures r.None? <==> forall k :: k in keys ==> HasKey(d, k)
    ensures r.Some? ==> r.value in keys && !HasKey(d, r.value)
  {
    if |keys| == 0 then None
    else if !HasKey(d, keys[0]) then Some(keys[0])
    else FirstMissing(d, keys[1..])
  }

  /** any(len(row) != cols for row in rows), evaluated left to right: a row
      without a length raises before any later row is looked at. */
  function AnyRowMismatch(rows: seq<Json>, cols: int): (r: Outcome<bool>)
    ensures r == Ok(true) ==> exists i :: 0 <= i < |rows| && Len(rows[i]).Ok? && Len(rows[i]).value != cols
    ensures r.Raises? ==> r.error == TypeError && exists i :: 0 <= i < |rows| && Len(rows[i]).Raises?
  {
    if |rows| == 0 then Ok(false)
    else match Len(rows[0])
      case Raises(e) => Raises(e)
      case Ok(n) =>
        if n != cols then Ok(true)
        else
          var r := AnyRowMismatch(rows[1..], cols);
          assert forall i :: 0 <= i < |rows| - 1 ==> rows[1..][i] == rows[i + 1];
          r
  }

  /** _validate_map_data: the checks in the order the source makes them. A reported key is a
      required one the record lacks; any other verdict means every required key is present; the
      only exception that escapes is the TypeError of len(). */
  function ValidateMapData(data: Fields): (r: Check)
    ensures r.MissingKey? ==> r.key in RequiredKeys && !HasKey(data, r.key)
    ensures !r.MissingKey? ==> forall k :: k in RequiredKeys ==> HasKey(data, k)
    ensures r.Raised? ==> r.error == TypeError
  {
    var missing := FirstMissing(data, RequiredKeys);
    if missing.Some? then MissingKey(missing.value)
    else
      var m := Lookup(data, "matriz").value;
      if !m.JObject? || !HasKey(m.fields, "filas") || !HasKey(m.fields, "columnas") then BadMatrixFormat
      else
        var rows := Lookup(m.fields, "filas").value;
        var cols := Lookup(m.fields, "columnas").value;
        if !(IsInt(rows) && IntValue(rows) >= 1 && IsInt(cols) && IntValue(cols) >= 1) then BadDimensions
        else
          var costs := Lookup(data, "matrizInicial").value;
          match Len(costs)
          case Raises(e) => Raised(e)
          case Ok(n) =>
            if n != IntValue(rows) then DimensionMismatch
            else
              // a value with a length can be iterated
              match AnyRowMismatch(Iterate(costs).value, IntValue(cols))
              case Raises(e) => Raised(e)
              case Ok(bad) => if bad then DimensionMismatch else Valid
  }

  /** The record shape the validation accepts, stated without its control flow. */
  predicate WellShaped(data: Fields)
  {
    && (forall k :: k in RequiredKeys ==> HasKey(data, k))
    && var m := Lookup(data, "matriz").value;
    && m.JObject? && HasKey(m.fields, "filas") && HasKey(m.fields, "columnas")
    && var rows := Lookup(m.fields, "filas").value;
    && var cols := Lookup(m.fields, "columnas").value;
    && IsInt(rows) && IntValue(rows) >= 1 && IsInt(cols) && IntValue(cols) >= 1
    && var costs := Lookup(data, "matrizInicial").value;
    && Len(costs) == Ok(IntValue(rows))
    && forall row :: row in Iterate(costs).value ==> Len(row) == Ok(IntValue(cols))
  }

  /** The row scan reports no mismatch exactly when every row has length cols. */
  lemma {:induction false} AnyRowMismatchSpec(rows: seq<Json>, cols: int)
    ensures AnyRowMismatch(rows, cols) == Ok(false) <==> forall row :: row in rows ==> Len(row) == Ok(cols)
  {
    if |rows| > 0 {
      AnyRowMismatchSpec(rows[1..], cols);
      assert forall row :: row in rows <==> row == rows[0] || row in rows[1..];
    }
  }

  /** Validation passes exactly on well-shaped records. */
  lemma ValidIffWellShaped(data: Fields)
    ensures ValidateMapData(data) == Valid <==> WellShaped(data)
  {
    if FirstMissing(data, RequiredKeys).None? {
      var m := Lookup(data, "matriz").value;
      if m.JObject? && HasKey(m.fields, "filas") && HasKey(m.fields, "columnas") {
        var rows := Lookup(m.fields, "filas").value;
        var cols := Lookup(m.fields, "columnas").value;
        if IsInt(rows) && IntValue(rows) >= 1 && IsInt(cols) && IntValue(cols) >= 1 {
          var costs := Lookup(data, "matrizInicial").value;
          if Len(costs).Ok? {
            AnyRowMismatchSpec(Iterate(costs).value, IntValue(cols));
          }
        }
      }
    }
  }

  /** A missing required key is always reported, and it is the first one
      missing in the order of the required-key list. */
  lemma MissingKeyReported(data: Fields, i: nat)
    requires i < |RequiredKeys| && !HasKey(data, RequiredKeys[i])
    requires forall j :: 0 <= j < i ==> HasKey(data, RequiredKeys[j])
    ensures ValidateMapData(data) == MissingKey(RequiredKeys[i])
  {
    FirstMissingAt(data, RequiredKeys, i);
  }

  lemma {:induction false} FirstMissingAt(d: Fields, keys: seq<string>, i: nat)
    requires i < |keys| && !HasKey(d, keys[i])
    requires forall j :: 0 <= j < i ==> HasKey(d, keys[j])
    ensures FirstMissing(d, keys) == Some(keys[i])
  {
    if i > 0 {
      FirstMissingAt(d, keys[1..], i - 1);
    }
  }

  /** With all keys present, a `matriz` that is not a dict holding both
      `filas` and `columnas` fails with the matrix-format error. */
  lemma MatrixFormatChecked(data: Fields)
    requires forall k :: k in RequiredKeys ==> HasKey(data, k)
    requires var m := Lookup(data, "matriz").value;
      !(m.JObject? && HasKey(m.fields, "filas") && HasKey(m.fields, "columnas"))
    ensures ValidateMapData(data) == BadMatrixFormat
  {
  }

  /** A record that passes has a dict `matriz` whose `filas` and `columnas`
      are integers (bools included) of at least 1. */
  lemma ValidImpliesDimensions(data: Fields)
    requires ValidateMapData(data) == Valid
    ensures var m := Lookup(data, "matriz").value;
      m.JObject? &&
      IsInt(Lookup(m.fields, "filas").value) && IntValue(Lookup(m.fields, "filas").value) >= 1 &&
      IsInt(Lookup(m.fields, "columnas").value) && IntValue(Lookup(m.fields, "columnas").value) >= 1
  {
    ValidIffWellShaped(data);
  }

  /** d with the value of key replaced in place. */
  function Replace(d: Fields, key: string, v: Json): (r: Fields)
    ensures |r| == |d|
    ensures forall i :: 0 <= i < |d| ==> r[i].0 == d[i].0
  {
    if |d| == 0 then []
    else if d[0].0 == key then [(key, v)] + Replace(d[1..], key, v)
    else [d[0]] + Replace(d[1..], key, v)
  }

  lemma {:induction false} ReplaceKeeps(d: Fields, key: string, v: Json, other: string)
    requires other != key
    ensures HasKey(Replace(d, key, v), other) <==> HasKey(d, other)
    ensures Lookup(Replace(d, key, v), other) == Lookup(d, other)
  {
    var r := Replace(d, key, v);
    assert forall k :: HasKey(r, k) <==> HasKey(d, k) by {
      forall k ensures HasKey(r, k) <==> HasKey(d, k) {
        if HasKey(d, k) {
          var i :| 0 <= i < |d| && d[i].0 == k;
          assert r[i].0 == k;
        }
        if HasKey(r, k) {
          var i :| 0 <= i < |r| && r[i].0 == k;
          assert d[i].0 == k;
        }
      }
    }
    if |d| > 0 {
      ReplaceKeeps(d[1..], key, v, other);
    }
  }

  /** The giant-star count is looked at but never rejects: whatever
      `estrellasGigantes` holds, the verdict is the same. */
  lemma GiantStarsNotChecked(data: Fields, v: Json)
    ensures ValidateMapData(Replace(data, "estrellasGigantes", v)) == ValidateMapData(data)
  {
    var d' := Replace(data, "estrellasGigantes", v);
    ReplaceSameKeys(data, "estrellasGigantes", v);
    FirstMissingSame(data, d', RequiredKeys);
    ReplaceKeeps(data, "estrellasGigantes", v, "matriz");
    ReplaceKeeps(data, "estrellasGigantes", v, "matrizInicial");
    ValidateReadsOnly(data, d');
  }

  /** The validation looks only at which required key is missing first and at the values of
      `matriz` and `matrizInicial`. */
  lemma ValidateReadsOnly(d: Fields, d': Fields)
    requires FirstMissing(d', RequiredKeys) == FirstMissing(d, RequiredKeys)
    requires Lookup(d', "matriz") == Lookup(d, "matriz") && Lookup(d', "matrizInicial") == Lookup(d, "matrizInicial")
    ensures ValidateMapData(d') == ValidateMapData(d)
  {
  }

  /** Replacing a value keeps the set of keys. */
  lemma ReplaceSameKeys(d: Fields, key: string, v: Json)
    ensures forall k :: HasKey(Replace(d, key, v), k) <==> HasKey(d, k)
  {
    var d' := Replace(d, key, v);
    forall k
      ensures HasKey(d', k) <==> HasKey(d, k)
    {
      if HasKey(d, k) {
        var i :| 0 <= i < |d| && d[i].0 == k;
        assert d'[i].0 == k;
      }
      if HasKey(d', k) {
        var i :| 0 <= i < |d'| && d'[i].0 == k;
        assert d[i].0 == k;
      }
    }
  }

  lemma {:induction false} FirstMissingSame(d: Fields, d': Fields, keys: seq<string>)
    requires forall k :: HasKey(d', k) <==> HasKey(d, k)
    ensures FirstMissing(d', keys) == FirstMissing(d, keys)
  {
    if |keys| > 0 {
      FirstMissingSame(d, d', keys[1..]);
    }
  }

  // ---------------------------------------------------------------------
  // The loaded record and the getters

  /** What `_load_map` keeps of a decoded document: the record itself when
      it validates, None when decoding failed or validation raised. */
  function LoadDecoded(decoded: Option<Fields>): (data: Option<Fields>)
    ensures data.Some? ==> decoded.Some? && data.value == decoded.value && WellShaped(data.value)
    ensures decoded.Some? && WellShaped(decoded.value) ==> data == decoded
  {
    ValidIffWellShapedAll();
    match decoded
    case None => None
    case Some(d) => if ValidateMapData(d) == Valid then Some(d) else None
  }

  lemma ValidIffWellShapedAll()
    ensures forall d :: ValidateMapData(d) == Valid <==> WellShaped(d)
  {
    forall d ensures ValidateMapData(d) == Valid <==> WellShaped(d) {
      ValidIffWellShaped(d);
    }
  }

  /** `if self.data:` -- None and the empty dict are both false. */
  predicate Loaded(data: Option<Fields>)
  {
    data.Some? && |data.value| > 0
  }

  /** data[key] on the top-level dict. */
  function Field(d: Fields, key: string): Outcome<Json>
  {
    match Lookup(d, key) case Some(v) => Ok(v) case None => Raises(KeyError)
  }

  /** get_dimensions: (filas, columnas) of the `matriz` dict, or (None, None) with no data; a
      `matriz` that is not a dict raises TypeError, a missing key KeyError. */
  function GetDimensions(data: Option<Fields>): (r: Outcome<(Json, Json)>)
    ensures !Loaded(data) ==> r == Ok((JNull, JNull))
    ensures Loaded(data) && r.Ok? ==>
      && HasKey(data.value, "matriz")
      && var m := Lookup(data.value, "matriz").value;
      && m.JObject? && HasKey(m.fields, "filas") && HasKey(m.fields, "columnas")
      && r.value == (Lookup(m.fields, "filas").value, Lookup(m.fields, "columnas").value)
    ensures r.Raises? ==> Loaded(data)
    ensures r.Raises? ==> (r.error == TypeError <==> HasKey(data.value, "matriz") && !Lookup(data.value, "matriz").value.JObject?)
  {
    if !Loaded(data) then Ok((JNull, JNull))
    else match Field(data.value, "matriz")
      case Raises(e) => Raises(e)
      case Ok(m) =>
        match Subscript(m, "filas")
        case Raises(e) => Raises(e)
        case Ok(rows) =>
          match Subscript(m, "columnas")
          case Raises(e) => Raises(e)
          case Ok(cols) => Ok((rows, cols))
  }

  /** tuple(data[key]), or None with no data (get_start_location, get_end_location). */
  function GetLocation(data: Option<Fields>, key: string): (r: Outcome<Option<seq<Json>>>)
    ensures r == Ok(None) <==> !Loaded(data)
    ensures r.Raises? ==> Loaded(data) && (r.error == KeyError <==> !HasKey(data.value, key))
    ensures r.Ok? && Loaded(data) ==> HasKey(data.value, key) && Len(Lookup(data.value, key).value) == Ok(|r.value.value|)
  {
    if !Loaded(data) then Ok(None)
    else match Field(data.value, key)
      case Raises(e) => Raises(e)
      case Ok(v) => match Iterate(v) case Raises(e) => Raises(e) case Ok(t) => Ok(Some(t))
  }

  /** get_start_location: None exactly when there is no data; otherwise `origen` as a tuple. */
  function GetStartLocation(data: Option<Fields>): (r: Outcome<Option<seq<Json>>>)
    ensures r == Ok(None) <==> !Loaded(data)
    ensures r.Ok? && Loaded(data) ==> HasKey(data.value, "origen")
  {
    GetLocation(data, "origen")
  }

  /** get_end_location: None exactly when there is no data; otherwise `destino` as a tuple. */
  function GetEndLocation(data: Option<Fields>): (r: Outcome<Option<seq<Json>>>)
    ensures r == Ok(None) <==> !Loaded(data)
    ensures r.Ok? && Loaded(data) ==> HasKey(data.value, "destino")
  {
    GetLocation(data, "destino")
  }

  /** [tuple(x) for x in items], raising at the first element without one. */
  function Tuples(items: seq<Json>): (r: Outcome<seq<seq<Json>>>)
    ensures r.Ok? ==> |r.value| == |items|
    ensures r.Ok? ==> forall i :: 0 <= i < |items| ==> Iterate(items[i]) == Ok(r.value[i])
    ensures r.Ok? <==> forall i :: 0 <= i < |items| ==> Iterate(items[i]).Ok?
    ensures r.Raises? ==> r.error == TypeError
  {
    if |items| == 0 then Ok([])
    else match Iterate(items[0])
      case Raises(e) => Raises(e)
      case Ok(t) =>
        match Tuples(items[1..])
        case Raises(e) => Raises(e)
        case Ok(rest) => Ok([t] + rest)
  }

  /** [tuple(x) for x in data[key]], or [] with no data (get_black_holes, get_giant_stars). */
  function GetCellList(data: Option<Fields>, key: string): (r: Outcome<seq<seq<Json>>>)
    ensures !Loaded(data) ==> r == Ok([])
    ensures r.Raises? ==> Loaded(data) && (r.error == KeyError <==> !HasKey(data.value, key))
    ensures r.Ok? && Loaded(data) ==> HasKey(data.value, key) && Len(Lookup(data.value, key).value) == Ok(|r.value|)
  {
    if !Loaded(data) then Ok([])
    else match Field(data.value, key)
      case Raises(e) => Raises(e)
      case Ok(v) => match Iterate(v) case Raises(e) => Raises(e) case Ok(items) => Tuples(items)
  }

  /** get_black_holes: one tuple per listed black hole. */
  function GetBlackHoles(data: Option<Fields>): (r: Outcome<seq<seq<Json>>>)
    ensures r.Ok? && Loaded(data) ==>
      HasKey(data.value, "agujerosNegros") && Len(Lookup(data.value, "agujerosNegros").value) == Ok(|r.value|)
  {
    GetCellList(data, "agujerosNegros")
  }

  /** get_giant_stars: one tuple per listed giant star. */
  function GetGiantStars(data: Option<Fields>): (r: Outcome<seq<seq<Json>>>)
    ensures r.Ok? && Loaded(data) ==>
      HasKey(data.value, "estrellasGigantes") && Len(Lookup(data.value, "estrellasGigantes").value) == Ok(|r.value|)
  {
    GetCellList(data, "estrellasGigantes")
  }

  datatype Wormhole = Wormhole(entrada: seq<Json>, salida: seq<Json>, costo: Json)

  /** One {'entrada': ..., 'salida': ..., 'costo': ...}, its values evaluated in that order. */
  function WormholeOf(wh: Json): (r: Outcome<Wormhole>)
    ensures r.Ok? ==> wh.JObject? && HasKey(wh.fields, "entrada") && HasKey(wh.fields, "salida")
    ensures r.Ok? ==> Lookup(wh.fields, "costo") == Some(r.value.costo)
    ensures r.Ok? ==> Iterate(Lookup(wh.fields, "entrada").value) == Ok(r.value.entrada)
    ensures r.Ok? ==> Iterate(Lookup(wh.fields, "salida").value) == Ok(r.value.salida)
  {
    match Subscript(wh, "entrada")
    case Raises(e) => Raises(e)
    case Ok(a) =>
      match Iterate(a)
      case Raises(e) => Raises(e)
      case Ok(entrada) =>
        match Subscript(wh, "salida")
        case Raises(e) => Raises(e)
        case Ok(b) =>
          match Iterate(b)
          case Raises(e) => Raises(e)
          case Ok(salida) =>
            match Subscript(wh, "costo")
            case Raises(e) => Raises(e)
            case Ok(c) => Ok(Wormhole(entrada, salida, c))
  }

  function Wormholes(items: seq<Json>): (r: Outcome<seq<Wormhole>>)
    ensures r.Ok? ==> |r.value| == |items|
    ensures r.Ok? ==> forall i :: 0 <= i < |items| ==> WormholeOf(items[i]) == Ok(r.value[i])
  {
    if |items| == 0 then Ok([])
    else match WormholeOf(items[0])
      case Raises(e) => Raises(e)
      case Ok(w) =>
        match Wormholes(items[1..])
        case Raises(e) => Raises(e)
        case Ok(rest) => Ok([w] + rest)
  }

  /** get_wormholes: data.get('agujerosGusano', []) reshaped, one record per wormhole; a missing
      key reads as no wormholes and is not an error. */
  function GetWormholes(data: Option<Fields>): (r: Outcome<seq<Wormhole>>)
    ensures Loaded(data) && !HasKey(data.value, "agujerosGusano") ==> r == Ok([])
    ensures r.Ok? && Loaded(data) && HasKey(data.value, "agujerosGusano") ==>
      Len(Lookup(data.value, "agujerosGusano").value) == Ok(|r.value|)
  {
    if !Loaded(data) then Ok([])
    else
      var v := match Lookup(data.value, "agujerosGusano") case Some(x) => x case None => JArray([]);
      match Iterate(v) case Raises(e) => Raises(e) case Ok(items) => Wormholes(items)
  }

  /** (rz['posicion'][0], rz['posicion'][1], rz['factorMultiplicador']) */
  function RechargeZoneOf(rz: Json): (r: Outcome<(Json, Json, Json)>)
    ensures r.Ok? ==> rz.JObject? && HasKey(rz.fields, "posicion")
    ensures r.Ok? ==>
      var p := Lookup(rz.fields, "posicion").value;
      Index(p, 0) == Ok(r.value.0) && Index(p, 1) == Ok(r.value.1)
    ensures r.Ok? ==> Lookup(rz.fields, "factorMultiplicador") == Some(r.value.2)
  {
    match Subscript(rz, "posicion")
    case Raises(e) => Raises(e)
    case Ok(p) =>
      match Index(p, 0)
      case Raises(e) => Raises(e)
      case Ok(r) =>
        match Subscript(rz, "posicion")
        case Raises(e) => Raises(e)
        case Ok(p') =>
          match Index(p', 1)
          case Raises(e) => Raises(e)
          case Ok(c) =>
            match Subscript(rz, "factorMultiplicador")
            case Raises(e) => Raises(e)
            case Ok(f) => Ok((r, c, f))
  }

  function RechargeZones(items: seq<Json>): (r: Outcome<seq<(Json, Json, Json)>>)
    ensures r.Ok? ==> |r.value| == |items|
    ensures r.Ok? ==> forall i :: 0 <= i < |items| ==> RechargeZoneOf(items[i]) == Ok(r.value[i])
  {
    if |items| == 0 then Ok([])
    else match RechargeZoneOf(items[0])
      case Raises(e) => Raises(e)
      case Ok(z) =>
        match RechargeZones(items[1..])
        case Raises(e) => Raises(e)
        case Ok(rest) => Ok([z] + rest)
  }

  /** get_recharge_zones: one (row, column, factor) triple per zone. */
  function GetRechargeZones(data: Option<Fields>): (r: Outcome<seq<(Json, Json, Json)>>)
    ensures !Loaded(data) ==> r == Ok([])
    ensures r.Ok? && Loaded(data) ==>
      HasKey(data.value, "zonasRecarga") && Len(Lookup(data.value, "zonasRecarga").value) == Ok(|r.value|)
  {
    if !Loaded(data) then Ok([])
    else match Field(data.value, "zonasRecarga")
      case Raises(e) => Raises(e)
      case Ok(v) => match Iterate(v) case Raises(e) => Raises(e) case Ok(items) => RechargeZones(items)
  }

  datatype RequiredCharge = RequiredCharge(coordenada: seq<Json>, cargaMinima: Json)

  function RequiredChargeOf(cell: Json): (r: Outcome<RequiredCharge>)
    ensures r.Ok? ==> cell.JObject? && HasKey(cell.fields, "coordenada")
    ensures r.Ok? ==> Iterate(Lookup(cell.fields, "coordenada").value) == Ok(r.value.coordenada)
    ensures r.Ok? ==> Lookup(cell.fields, "cargaMinima") == Some(r.value.cargaMinima)
  {
    match Subscript(cell, "coordenada")
    case Raises(e) => Raises(e)
    case Ok(a) =>
      match Iterate(a)
      case Raises(e) => Raises(e)
      case Ok(coord) =>
        match Subscript(cell, "cargaMinima")
        case Raises(e) => Raises(e)
        case Ok(m) => Ok(RequiredCharge(coord, m))
  }

  function RequiredCharges(items: seq<Json>): (r: Outcome<seq<RequiredCharge>>)
    ensures r.Ok? ==> |r.value| == |items|
    ensures r.Ok? ==> forall i :: 0 <= i < |items| ==> RequiredChargeOf(items[i]) == Ok(r.value[i])
  {
    if |items| == 0 then Ok([])
    else match RequiredChargeOf(items[0])
      case Raises(e) => Raises(e)
      case Ok(z) =>
        match RequiredCharges(items[1..])
        case Raises(e) => Raises(e)
        case Ok(rest) => Ok([z] + rest)
  }

  /** get_required_charge_cells: [] unless there is data holding the key. */
  function GetRequiredChargeCells(data: Option<Fields>): (r: Outcome<seq<RequiredCharge>>)
    ensures !Loaded(data) || !HasKey(data.value, "celdasCargaRequerida") ==> r == Ok([])
    ensures r.Raises? ==> Loaded(data) && HasKey(data.value, "celdasCargaRequerida")
    ensures r.Ok? && Loaded(data) && HasKey(data.value, "celdasCargaRequerida") ==>
      Len(Lookup(data.value, "celdasCargaRequerida").value) == Ok(|r.value|)
  {
    if !Loaded(data) || !HasKey(data.value, "celdasCargaRequerida") then Ok([])
    else
      var v := Lookup(data.value, "celdasCargaRequerida").value;
      match Iterate(v) case Raises(e) => Raises(e) case Ok(items) => RequiredCharges(items)
  }

  /** get_initial_charge: data['cargaInicial'], or 0 with no data. */
  function GetInitialCharge(data: Option<Fields>): (r: Outcome<Json>)
    ensures r.Raises? <==> Loaded(data) && !HasKey(data.value, "cargaInicial")
    ensures r.Raises? ==> r.error == KeyError
    ensures r.Ok? && Loaded(data) ==> Lookup(data.value, "cargaInicial") == Some(r.value)
  {
    if !Loaded(data) then Ok(JInt(0)) else Field(data.value, "cargaInicial")
  }

  /** get_energy_costs: data['matrizInicial'], or [] with no data. */
  function GetEnergyCosts(data: Option<Fields>): (r: Outcome<Json>)
    ensures r.Raises? <==> Loaded(data) && !HasKey(data.value, "matrizInicial")
    ensures r.Raises? ==> r.error == KeyError
    ensures r.Ok? && Loaded(data) ==> Lookup(data.value, "matrizInicial") == Some(r.value)
  {
    if !Loaded(data) then Ok(JArray([])) else Field(data.value, "matrizInicial")
  }

  // ---------------------------------------------------------------------
  // What the getters promise

  /** With no data loaded every getter returns its default. */
  lemma NoDataDefaults(data: Option<Fields>)
    requires !Loaded(data)
    ensures GetDimensions(data) == Ok((JNull, JNull))
    ensures GetStartLocation(data) == Ok(None) && GetEndLocation(data) == Ok(None)
    ensures GetBlackHoles(data) == Ok([]) && GetGiantStars(data) == Ok([])
    ensures GetWormholes(data) == Ok([]) && GetRechargeZones(data) == Ok([])
    ensures GetRequiredChargeCells(data) == Ok([])
    ensures GetInitialCharge(data) == Ok(JInt(0)) && GetEnergyCosts(data) == Ok(JArray([]))
  {
  }

  /** On a record that passed validation the dimension, charge and cost
      getters never raise, and the costs have the validated shape. */
  lemma LoadedGetters(decoded: Option<Fields>)
    requires LoadDecoded(decoded).Some?
    ensures var data := LoadDecoded(decoded);
      var d := data.value;
      var m := Lookup(d, "matriz").value;
      && GetDimensions(data) == Ok((Lookup(m.fields, "filas").value, Lookup(m.fields, "columnas").value))
      && IntValue(GetDimensions(data).value.0) >= 1 && IntValue(GetDimensions(data).value.1) >= 1
      && GetInitialCharge(data) == Ok(Lookup(d, "cargaInicial").value)
      && GetEnergyCosts(data).Ok?
      && Len(GetEnergyCosts(data).value) == Ok(IntValue(GetDimensions(data).value.0))
      && forall row :: row in Iterate(GetEnergyCosts(data).value).value ==>
           Len(row) == Ok(IntValue(GetDimensions(data).value.1))
  {
    var d := LoadDecoded(decoded).value;
    assert HasKey(d, RequiredKeys[0]) && HasKey(d, RequiredKeys[8]) && HasKey(d, RequiredKeys[9]);
    assert |d| > 0;
  }

  /** get_recharge_zones keeps the zones' order: the i-th result is
      (posicion[0], posicion[1], factorMultiplicador) of the i-th zone. */
  lemma RechargeZonesInOrder(data: Option<Fields>, i: nat)
    requires Loaded(data) && GetRechargeZones(data).Ok?
    ensures var zones := Iterate(Lookup(data.value, "zonasRecarga").value).value;
      var out := GetRechargeZones(data).value;
      |out| == |zones| &&
      (i < |zones| ==>
        var p := Subscript(zones[i], "posicion").value;
        out[i] == (Index(p, 0).value, Index(p, 1).value, Subscript(zones[i], "factorMultiplicador").value))
  {
    var zones := Iterate(Lookup(data.value, "zonasRecarga").value).value;
    if i < |zones| {
      assert RechargeZoneOf(zones[i]).Ok?;
    }
  }
}
