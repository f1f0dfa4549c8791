/** Settings: which values are accepted, what is stored, and what is read back
    (app/services/settings_spec.py:281-370, app/services/settings_api.py:15-58,
    app/services/domain_settings.py:76-139). */
module Settings {
  import opened Names
  import opened Text

  datatype ValueType = StringType | IntegerType | BooleanType | JsonType

  /** A JSON value; a list or object is known by the text that str() gives for it. */
  datatype Json = Bool(b: bool) | Int(n: int) | Str(s: string) | Composite(text: string)

  datatype Spec = Spec(
    valueType: ValueType, fallback: Option<Json>, allowed: set<string>, minValue: Option<int>, maxValue: Option<int>,
        isSecret: bool)

  // ----------------------------------------------------------- text and numbers

  /** Digits, with single underscores between them. */
  predicate DigitsOk(s: string) {
    && s != [] && IsDigit(s[0]) && IsDigit(s[|s| - 1])
    && (forall i :: 0 <= i < |s| ==> IsDigit(s[i]) || s[i] == '_')
    && (forall i :: 0 <= i < |s| - 1 ==> !(s[i] == '_' && s[i + 1] == '_'))
  }

  function DigitsValue(s: string): nat {
    if s == [] then 0
    else if IsDigit(s[|s| - 1]) then 10 * DigitsValue(s[..|s| - 1]) + (s[|s| - 1] as int - '0' as int)
    else DigitsValue(s[..|s| - 1])
  }

  /** int() of a text. */
  function ParseInt(s: string): Option<int> {
    var t := Strip(s);
    if t != [] && t[0] in {'+', '-'} then
      var n: int := DigitsValue(t[1..]);
      if DigitsOk(t[1..]) then Some(if t[0] == '-' then -n else n) else None
    else if DigitsOk(t) then Some(DigitsValue(t))
    else None
  }

  function PrintNat(n: nat): string {
    var last := [('0' as int + n % 10) as char];
    if n < 10 then last else PrintNat(n / 10) + last
  }

  /** str() of an integer. */
  function PrintInt(n: int): string {
    if n < 0 then "-" + PrintNat(-n) else PrintNat(n)
  }

  lemma {:induction false} PrintNatReads(n: nat)
    ensures PrintNat(n) != [] && (forall i :: 0 <= i < |PrintNat(n)| ==> IsDigit(PrintNat(n)[i]))
        && DigitsValue(PrintNat(n)) == n
  {
    var s := PrintNat(n);
    if n >= 10 {
      PrintNatReads(n / 10);
      assert s[..|s| - 1] == PrintNat(n / 10);
    } else {
      assert s[..0] == [];
    }
  }

  /** Every integer, negative ones too, comes back from its decimal text. */
  lemma IntThroughText(n: int)
    ensures ParseInt(PrintInt(n)) == Some(n)
  {
    var d := PrintNat(if n < 0 then -n else n);
    PrintNatReads(if n < 0 then -n else n);
    var s := PrintInt(n);
    assert n < 0 ==> s[1..] == d && s[0] == '-' && s[|s| - 1] == d[|d| - 1];
    assert DigitsOk(d);
    hide DigitsOk, PrintNat, PrintInt, DigitsValue;
    StripPlain(s);
    hide Strip;
  }

  // ------------------------------------------------------------------- coercion

  /** coerce_value: a value, nothing, or an error. */
  datatype Coerced = Value(value: Option<Json>) | Bad

  /** str() of a value. */
  function TextOf(v: Json): string {
    match v
    case Bool(b) => if b then "True" else "False"
    case Int(n) => PrintInt(n)
    case Str(s) => s
    case Composite(text) => text
  }

  function CoerceBool(raw: Json): Coerced {
    match raw
    case Bool(b) => Value(Some(raw))
    case Str(s) =>
      var t := Lower(Strip(s));
      if t in {"1", "true", "yes", "on"} then Value(Some(Bool(true)))
      else if t in {"0", "false", "no", "off"} then Value(Some(Bool(false)))
      else Bad
    case _ => Bad
  }

  /** A boolean is an integer here, as in Python. */
  function CoerceInt(raw: Json): Coerced {
    match raw
    case Int(_) => Value(Some(raw))
    case Bool(_) => Value(Some(raw))
    case Str(s) => (match ParseInt(s) case Some(n) => Value(Some(Int(n))) case None => Bad)
    case Composite(_) => Bad
  }

  function Coerce(spec: Spec, raw: Option<Json>): Coerced {
    match raw
    case None => Value(None)
    case Some(v) =>
      match spec.valueType
      case BooleanType => CoerceBool(v)
      case IntegerType => CoerceInt(v)
      case StringType => Value(Some(Str(TextOf(v))))
      case JsonType => Value(Some(v))
  }

  /** int() of a coerced value. */
  function ToInt(v: Json): Option<int> {
    match v
    case Int(n) => Some(n)
    case Bool(b) => Some(if b then 1 else 0)
    case Str(s) => ParseInt(s)
    case Composite(_) => None
  }

  predicate InRange(spec: Spec, n: int) {
    (spec.minValue.Some? ==> spec.minValue.value <= n) && (spec.maxValue.Some? ==> n <= spec.maxValue.value)
  }

  /** The choices of an enumerated setting; an empty set means that there are none to check. */
  predicate IsAllowed(spec: Spec, v: Json) {
    spec.allowed == {} || (v.Str? && v.s in spec.allowed)
  }

  // -------------------------------------------------- acceptance and storing

  /** The columns of a stored setting. */
  datatype Setting = Setting(valueType: ValueType, text: Option<string>, json: Option<Json>, isSecret: bool,
      isActive: bool)

  /** A flag of a request: left out, given as null, or given. */
  datatype Flag = Unset | Null | Given(b: bool)

  datatype Payload = Payload(text: Option<string>, json: Option<Json>, isSecret: Flag, isActive: Flag)

  /** The accepted value and the payload to store it with. */
  datatype Check = Accepted(value: Json, valueType: ValueType, payload: Payload) | Rejected

  function NormalizeForDb(spec: Spec, v: Json): (Option<string>, Option<Json>) {
    match spec.valueType
    case BooleanType => (match v case Bool(b) => (Some(if b then "true" else "false"), Some(v)) case _ => (Some("true"),
        Some(Bool(true))))
    case IntegerType => (match ToInt(v) case Some(n) => (Some(PrintInt(n)), None) case None => (None, None))
    case StringType => (Some(TextOf(v)), None)
    case JsonType => (None, Some(v))
  }

  /** _normalize_spec_setting. */
  function NormalizeSpecSetting(spec: Spec, p: Payload): Check {
    var raw := if p.text.Some? then Some(Str(p.text.value)) else p.json;
    if raw.None? then Rejected
    else
      match Coerce(spec, raw)
      case Bad => Rejected
      case Value(None) => Rejected
      case Value(Some(v0)) =>
        var v := if v0.Str? && spec.allowed != {} then Str(Lower(Strip(v0.s))) else v0;
        if !IsAllowed(spec, v) then Rejected
        else if spec.valueType == IntegerType then
          match ToInt(v)
          case None => Rejected
          case Some(n) => if InRange(spec, n) then Normalized(spec, p, Int(n)) else Rejected
        else Normalized(spec, p, v)
  }

  function Normalized(spec: Spec, p: Payload, v: Json): Check {
    var (text, json) := NormalizeForDb(spec, v);
    Accepted(v, spec.valueType, Payload(text, json, if spec.isSecret then Given(true) else p.isSecret, p.isActive))
  }

  /** What the lookup of a key gives: the row, or the error that it raises. */
  datatype Lookup = Hit(row: Setting) | NoSuchSetting

  /** The rows of one settings domain; the key is unique. */
  class DomainSettings {
    var rows: map<string, Setting>

    /** The activity flag plays no part in the lookup; a missing row is an error. */
    method GetByKey(key: string) returns (r: Lookup)
      ensures r == if key in rows then Hit(rows[key]) else NoSuchSetting
    {
      if key !in rows { return NoSuchSetting; }
      return Hit(rows[key]);
    }

    /** resolve_value: the error of the lookup is not of the type that it catches, so for a key
        without a row it comes through instead of the fallback. */
    method ResolveValue(spec: Spec, key: string) returns (r: Resolution)
      ensures r == Resolve(spec, if key in rows then Some(rows[key]) else None)
      ensures r == NotFoundError <==> key !in rows
    {
      var row := GetByKey(key);
      match row {
        case NoSuchSetting => return NotFoundError;
        case Hit(setting) => return Found(Evaluate(spec, Some(setting)));
      }
    }

    /** Fields that the payload has are written. A null flag makes the flush fail on an existing
        row, whose columns are not nullable; for a new row it means the default. */
    method UpsertByKey(key: string, valueType: ValueType, p: Payload) returns (stored: bool)
      modifies this
      ensures var row := Upserted(if key in old(rows) then Some(old(rows)[key]) else None, valueType, p);
        && (stored <==> row.Some?)
        && rows == if stored then old(rows)[key := row.value] else old(rows)
    {
      if key in rows {
        if p.isSecret.Null? || p.isActive.Null? { return false; }
        var row := rows[key].(valueType := valueType, text := p.text, json := p.json);
        if p.isSecret.Given? {
          row := row.(isSecret := p.isSecret.b);
        }
        if p.isActive.Given? {
          row := row.(isActive := p.isActive.b);
        }
        rows := rows[key := row];
      } else {
        rows := rows[key := Setting(valueType, p.text, p.json, p.isSecret == Given(true), p.isActive != Given(false))];
      }
      return true;
    }

    /** Create a setting unless there is one. */
    method EnsureByKey(key: string, valueType: ValueType, text: Option<string>, json: Option<Json>, isSecret: bool)
      modifies this
      ensures rows == if key in old(rows) then old(rows)
          else old(rows)[key := Setting(valueType, text, json, isSecret, true)]
    {
      if key !in rows {
        rows := rows[key := Setting(valueType, text, json, isSecret, true)];
      }
    }

    /** Deleting only clears the activity flag. */
    method Delete(key: string) returns (found: bool)
      modifies this
      ensures found <==> key in old(rows)
      ensures rows == if found then old(rows)[key := old(rows)[key].(isActive := false)] else old(rows)
    {
      found := key in rows;
      if found {
        rows := rows[key := rows[key].(isActive := false)];
      }
    }

    /** The whole write path of the API. */
    method Put(key: string, spec: Spec, p: Payload) returns (r: PutResult)
      requires SpecOk(spec)
      modifies this
      ensures r == Refused <==> NormalizeSpecSetting(spec, p).Rejected?
      ensures r == StoreError <==>
        && NormalizeSpecSetting(spec, p).Accepted? && key in old(rows)
        && (p.isActive.Null? || (p.isSecret.Null? && !spec.isSecret))
      ensures !r.Stored? ==> rows == old(rows)
      ensures r.Stored? ==> key in rows && Resolve(spec, Some(rows[key])) == Found(Some(r.value))
      ensures r.Stored? ==> rows[key].valueType == spec.valueType && (spec.isSecret ==> rows[key].isSecret)
      ensures r.Stored? && !spec.isSecret ==>
        rows[key].isSecret == if p.isSecret.Given? then p.isSecret.b else key in old(rows) && old(rows)[key].isSecret
      ensures r.Stored? ==>
        rows[key].isActive == if p.isActive.Given? then p.isActive.b else key in old(rows) ==> old(rows)[key].isActive
      ensures forall k :: k != key ==> (k in rows <==> k in old(rows)) && (k in rows ==> rows[k] == old(rows)[k])
    {
      match NormalizeSpecSetting(spec, p) {
        case Rejected => return Refused;
        case Accepted(v, valueType, q) =>
          RoundTrip(spec, p, if key in rows then Some(rows[key]) else None);
          hide ParseInt, PrintInt, Strip, Lower, Resolve;
          var stored := UpsertByKey(key, valueType, q);
          return if stored then Stored(v) else StoreError;
      }
    }
  }

  datatype PutResult = Refused | StoreError | Stored(value: Json)

  /** The row after an upsert; none when the flush fails. */
  function Upserted(row: Option<Setting>, valueType: ValueType, p: Payload): Option<Setting> {
    match row
    case Some(r) =>
      if p.isSecret.Null? || p.isActive.Null? then None
      else
        Some(Setting(valueType, p.text, p.json, if p.isSecret.Given? then p.isSecret.b else r.isSecret,
                     if p.isActive.Given? then p.isActive.b else r.isActive))
    case None => Some(Setting(valueType, p.text, p.json, p.isSecret == Given(true), p.isActive != Given(false)))
  }

  // -------------------------------------------------------------------- reading

  function ExtractDbValue(row: Option<Setting>): Option<Json> {
    match row
    case None => None
    case Some(r) => if r.text.Some? then Some(Str(r.text.value)) else r.json
  }

  /** A missing row is reported by an exception that resolve_value does not catch. */
  datatype Resolution = Found(value: Option<Json>) | NotFoundError

  function FallbackInt(spec: Spec): Option<int> {
    match spec.fallback
    case Some(Int(n)) => Some(n)
    case _ => None
  }

  function Clamp(spec: Spec, n: Option<int>): Option<int> {
    var a := if spec.minValue.Some? && n.Some? && n.value < spec.minValue.value then FallbackInt(spec) else n;
    if spec.maxValue.Some? && a.Some? && a.value > spec.maxValue.value then FallbackInt(spec) else a
  }

  /** The value of a row, or of none, by the rest of resolve_value. */
  function Evaluate(spec: Spec, row: Option<Setting>): Option<Json> {
    var stored := ExtractDbValue(row);
    var raw := if stored.None? then spec.fallback else stored;
    var v0 := match Coerce(spec, raw) case Bad => spec.fallback case Value(v) => v;
    var v1 := if v0.Some? && !IsAllowed(spec, v0.value) then spec.fallback else v0;
    if spec.valueType == IntegerType && v1.Some? then
      match Clamp(spec, match ToInt(v1.value) case Some(n) => Some(n) case None => FallbackInt(spec))
      case Some(n) => Some(Int(n))
      case None => None
    else v1
  }

  function Resolve(spec: Spec, row: Option<Setting>): Resolution {
    match row
    case None => NotFoundError
    case Some(r) => Found(Evaluate(spec, row))
  }

  /** What every entry of the table of specs satisfies. */
  predicate SpecOk(spec: Spec) {
    && (spec.allowed != {} ==> spec.valueType == StringType)
    && (spec.fallback.Some? ==> IsAllowed(spec, spec.fallback.value))
    && (spec.valueType == IntegerType && spec.fallback.Some? ==>
         spec.fallback.value.Int? && InRange(spec, spec.fallback.value.n))
    && (spec.valueType == BooleanType && spec.fallback.Some? ==> spec.fallback.value.Bool?)
    && (spec.valueType == StringType && spec.fallback.Some? ==> spec.fallback.value.Str?)
  }

  /** Which values of its own type a setting takes, and as what: an integer exactly when it is in
      range, an enumerated text exactly when it names a choice, everything else as it is. */
  lemma AcceptedIff(spec: Spec, v: Json, secret: Flag, active: Flag)
    requires SpecOk(spec)
    ensures var c := NormalizeSpecSetting(spec, Payload(None, Some(v), secret, active));
      match spec.valueType
      case IntegerType =>
        v.Int? ==> (c.Accepted? <==> InRange(spec, v.n)) && (c.Accepted? ==> c.value == v)
      case BooleanType => v.Bool? ==> c.Accepted? && c.value == v
      case StringType =>
        v.Str? ==>
          && (spec.allowed == {} ==> c.Accepted? && c.value == v)
          && (spec.allowed != {} ==> (c.Accepted? <==> Lower(Strip(v.s)) in spec.allowed))
          && (spec.allowed != {} && c.Accepted? ==> c.value == Str(Lower(Strip(v.s))))
      case JsonType => c.Accepted? && c.value == v
  {
    hide ParseInt, PrintInt, Strip, Lower;
  }

  /** The same integer or truth value as text is taken for it. */
  lemma TextAccepted(spec: Spec, n: int, b: bool, secret: Flag, active: Flag)
    requires SpecOk(spec)
    ensures spec.valueType == IntegerType ==>
      var c := NormalizeSpecSetting(spec, Payload(Some(PrintInt(n)), None, secret, active));
      (c.Accepted? <==> InRange(spec, n)) && (c.Accepted? ==> c.value == Int(n))
    ensures spec.valueType == BooleanType ==>
      var c := NormalizeSpecSetting(spec, Payload(Some(if b then "true" else "false"), None, secret, active));
      c.Accepted? && c.value == Bool(b)
  {
    IntThroughText(n);
    BoolThroughText(b);
    hide ParseInt, PrintInt, Strip, Lower;
  }

  lemma BoolThroughText(b: bool)
    ensures CoerceBool(Str(if b then "true" else "false")) == Value(Some(Bool(b)))
  {
    StripPlain("true");
    StripPlain("false");
    assert Lower("true") == "true" && Lower("false") == "false";
  }

  /** Whatever was accepted and stored is what is read back, over any earlier row, secret or not, active
      or not; what is not stored has a null flag for an existing row. */
  lemma RoundTrip(spec: Spec, p: Payload, before: Option<Setting>)
    requires SpecOk(spec) && NormalizeSpecSetting(spec, p).Accepted?
    ensures var a := NormalizeSpecSetting(spec, p);
      match Upserted(before, a.valueType, a.payload)
      case Some(row) => Resolve(spec, Some(row)) == Found(Some(a.value))
      case None => before.Some? && (p.isActive.Null? || (p.isSecret.Null? && !spec.isSecret))
  {
    var a := NormalizeSpecSetting(spec, p);
    match spec.valueType
    case IntegerType =>
      hide ParseInt, PrintInt, Strip, Lower;
      IntThroughText(a.value.n);
    case BooleanType =>
      hide ParseInt, PrintInt, Strip, Lower;
      BoolThroughText(a.value.b);
    case StringType => hide ParseInt, PrintInt, Strip, Lower;
    case JsonType => hide ParseInt, PrintInt, Strip, Lower;
  }

  /** Whatever the stored row holds, an integer setting resolves inside its range, an enumerated
      one to one of its choices, unless both fall back to having no value; and it resolves to
      the same whether the row is active or deleted. Without a row there is an error in place of
      the fallback that the rest of the function would give. */
  lemma ResolveIsSafe(spec: Spec, row: Option<Setting>)
    requires SpecOk(spec)
    ensures Resolve(spec, row) == NotFoundError <==> row == None
    ensures Evaluate(spec, None) == spec.fallback
    ensures spec.fallback.Some? ==> Evaluate(spec, row).Some?
    ensures match Evaluate(spec, row)
            case None => true
            case Some(v) =>
              (spec.valueType == IntegerType ==> v.Int? && InRange(spec, v.n))
              && (spec.valueType == BooleanType ==> v.Bool?)
              && (spec.allowed != {} ==> v.Str? && v.s in spec.allowed)
    ensures row.Some? ==> Resolve(spec, Some(row.value.(isActive := false))) == Resolve(spec, row)
  {
    hide ParseInt, PrintInt, Strip, Lower;
  }
}
