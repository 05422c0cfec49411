/** The columns of the accounts table and the code that carries an account into a row and back. */
module AccountFields {
  import opened Wrappers

  /** The field names of package account. `Other` is any name that is not one of them, such as a computed column's. */
  datatype Column =
    | ID | CreatedAt | UpdatedAt | DeletedAt | Name | Notes | Platform | Type | Credentials | Extra | ProxyID
    | ProxyFallbackOriginID | Concurrency | LoadFactor | Priority | RateMultiplier | Status | ErrorMessage | LastUsedAt
    | ExpiresAt | AutoPauseOnExpired | Schedulable | RateLimitedAt | RateLimitResetAt | OverloadUntil
    | TempUnschedulableUntil | TempUnschedulableReason | SessionWindowStart | SessionWindowEnd | SessionWindowStatus
    | ParentAccountID | QuotaDimension | Other(name: string)

  /** A Go value of one field. `Json` is a document by its content; `Bytes` is its encoding, as a row holds it. */
  datatype Value =
    | Int(n: int) | Text(s: string) | Instant(t: int) | Flag(b: bool) | Float(x: real) | Json(doc: string)
    | Bytes(text: string)

  /** The fields of a mutation or of a node that have been written; an absent one is unset, zero or nil. */
  type Fields = map<Column, Value>

  /** The columns of a stored row that are not NULL. */
  type Row = map<Column, Value>

  datatype Kind = IntKind | TextKind | TimeKind | BoolKind | FloatKind | BytesKind | UnknownKind

  /** A scan destination after the driver filled it: a null wrapper, a byte slice, or a value of unknown type. */
  datatype Slot =
    | NullInt(n: Option<int>) | NullText(s: Option<string>) | NullTime(t: Option<int>) | NullBool(b: Option<bool>)
    | NullFloat(x: Option<real>) | ByteSlice(text: string) | Untyped(v: Option<Value>)

  /** The JSON library. Decoding a text into a map that is already there merges it into that map. */
  datatype Codec = Codec(marshal: string -> string, unmarshal: (Option<string>, string) -> Option<string>)

  /** An encoding is never empty, and decodes to its document, into no map or into that very document. */
  ghost predicate RoundTrips(codec: Codec) {
    forall doc ::
      && codec.marshal(doc) != ""
      && codec.unmarshal(None, codec.marshal(doc)) == Some(doc)
      && codec.unmarshal(Some(doc), codec.marshal(doc)) == Some(doc)
  }

  // ------------------------------- the type of a field, as each part of the code states it

  /** The Go type of the struct field, and of the mutation's setter: a JSON field holds a document. */
  predicate HasGoType(c: Column, v: Value) {
    match c
    case Credentials | Extra => v.Json?
    case ID | ProxyID | ProxyFallbackOriginID | Concurrency | LoadFactor | Priority | ParentAccountID => v.Int?
    case RateMultiplier => v.Float?
    case AutoPauseOnExpired | Schedulable => v.Flag?
    case Name | Notes | Platform | Type | Status | ErrorMessage | TempUnschedulableReason | SessionWindowStatus =>
      v.Text?
    case QuotaDimension => v.Text?
    case Other(_) => false
    case _ => v.Instant?
  }

  /** The field type `createSpec` gives a column; None for the columns it writes no field for. */
  function SpecKind(c: Column): Option<Kind> {
    match c
    case CreatedAt => Some(TimeKind)
    case UpdatedAt => Some(TimeKind)
    case DeletedAt => Some(TimeKind)
    case Name => Some(TextKind)
    case Notes => Some(TextKind)
    case Platform => Some(TextKind)
    case Type => Some(TextKind)
    case Credentials => Some(BytesKind)
    case Extra => Some(BytesKind)
    case ProxyFallbackOriginID => Some(IntKind)
    case Concurrency => Some(IntKind)
    case LoadFactor => Some(IntKind)
    case Priority => Some(IntKind)
    case RateMultiplier => Some(FloatKind)
    case Status => Some(TextKind)
    case ErrorMessage => Some(TextKind)
    case LastUsedAt => Some(TimeKind)
    case ExpiresAt => Some(TimeKind)
    case AutoPauseOnExpired => Some(BoolKind)
    case Schedulable => Some(BoolKind)
    case RateLimitedAt => Some(TimeKind)
    case RateLimitResetAt => Some(TimeKind)
    case OverloadUntil => Some(TimeKind)
    case TempUnschedulableUntil => Some(TimeKind)
    case TempUnschedulableReason => Some(TextKind)
    case SessionWindowStart => Some(TimeKind)
    case SessionWindowEnd => Some(TimeKind)
    case SessionWindowStatus => Some(TextKind)
    case QuotaDimension => Some(TextKind)
    case ID | ProxyID | ParentAccountID | Other(_) => None
  }

  /** The destination `scanValues` makes for a column. */
  function ScanKind(c: Column): Kind {
    match c
    case Credentials | Extra => BytesKind
    case AutoPauseOnExpired | Schedulable => BoolKind
    case RateMultiplier => FloatKind
    case ID | ProxyID | ProxyFallbackOriginID | Concurrency | LoadFactor | Priority | ParentAccountID => IntKind
    case Name | Notes | Platform | Type | Status | ErrorMessage | TempUnschedulableReason | SessionWindowStatus
      | QuotaDimension => TextKind
    case CreatedAt | UpdatedAt | DeletedAt | LastUsedAt | ExpiresAt | RateLimitedAt | RateLimitResetAt | OverloadUntil
      | TempUnschedulableUntil | SessionWindowStart | SessionWindowEnd => TimeKind
    case Other(_) => UnknownKind
  }

  /** The destination `assignValues` expects for a column. It expects nothing of a column it does not know. */
  function AssignKind(c: Column): Option<Kind> {
    match c
    case ID => Some(IntKind)
    case CreatedAt => Some(TimeKind)
    case UpdatedAt => Some(TimeKind)
    case DeletedAt => Some(TimeKind)
    case Name => Some(TextKind)
    case Notes => Some(TextKind)
    case Platform => Some(TextKind)
    case Type => Some(TextKind)
    case Credentials => Some(BytesKind)
    case Extra => Some(BytesKind)
    case ProxyID => Some(IntKind)
    case ProxyFallbackOriginID => Some(IntKind)
    case Concurrency => Some(IntKind)
    case LoadFactor => Some(IntKind)
    case Priority => Some(IntKind)
    case RateMultiplier => Some(FloatKind)
    case Status => Some(TextKind)
    case ErrorMessage => Some(TextKind)
    case LastUsedAt => Some(TimeKind)
    case ExpiresAt => Some(TimeKind)
    case AutoPauseOnExpired => Some(BoolKind)
    case Schedulable => Some(BoolKind)
    case RateLimitedAt => Some(TimeKind)
    case RateLimitResetAt => Some(TimeKind)
    case OverloadUntil => Some(TimeKind)
    case TempUnschedulableUntil => Some(TimeKind)
    case TempUnschedulableReason => Some(TextKind)
    case SessionWindowStart => Some(TimeKind)
    case SessionWindowEnd => Some(TimeKind)
    case SessionWindowStatus => Some(TextKind)
    case ParentAccountID => Some(IntKind)
    case QuotaDimension => Some(TextKind)
    case Other(_) => None
  }

  // ---------------------------------------------------------------- writing a row

  function Encode(codec: Codec, kind: Kind, v: Value): Value {
    if kind == BytesKind && v.Json? then Bytes(codec.marshal(v.doc)) else v
  }

  /** The node of `createSpec`: every set field, and the keys of the two many-to-one edges. */
  function CreatedNode(m: Fields): Fields {
    map c | c in m && (SpecKind(c).Some? || c == ProxyID || c == ParentAccountID) :: m[c]
  }

  /** The row inserted for the spec of `createSpec`; the edges write their key columns, the database picks the id. */
  function InsertedRow(codec: Codec, m: Fields, id: int): Row {
    (map c | c in m && (SpecKind(c).Some? || c == ProxyID || c == ParentAccountID) ::
       if SpecKind(c).Some? then Encode(codec, SpecKind(c).value, m[c]) else m[c])[ID := Int(id)]
  }

  /** A mutation of a create: its setters are typed, and there is none for the id. */
  predicate TypedMutation(m: Fields) {
    ID !in m && forall c :: c in m ==> HasGoType(c, m[c])
  }

  // ---------------------------------------------------------------- reading a row

  method ScanValues(columns: seq<Column>) returns (kinds: seq<Kind>)
    ensures |kinds| == |columns| && forall i :: 0 <= i < |columns| ==> kinds[i] == ScanKind(columns[i])
  {
    kinds := [];
    for i := 0 to |columns|
      invariant |kinds| == i && forall k :: 0 <= k < i ==> kinds[k] == ScanKind(columns[k])
    {
      kinds := kinds + [ScanKind(columns[i])];
    }
  }

  function SlotKind(slot: Slot): Kind {
    match slot
    case NullInt(_) => IntKind
    case NullText(_) => TextKind
    case NullTime(_) => TimeKind
    case NullBool(_) => BoolKind
    case NullFloat(_) => FloatKind
    case ByteSlice(_) => BytesKind
    case Untyped(_) => UnknownKind
  }

  /** What the driver puts into a destination; None is its error for a value of another type. */
  function Scan(kind: Kind, cell: Option<Value>): (slot: Option<Slot>)
    ensures slot.Some? ==> SlotKind(slot.value) == kind
  {
    match (kind, cell)
    case (IntKind, None) => Some(NullInt(None))
    case (IntKind, Some(Int(n))) => Some(NullInt(Some(n)))
    case (TextKind, None) => Some(NullText(None))
    case (TextKind, Some(Text(s))) => Some(NullText(Some(s)))
    case (TimeKind, None) => Some(NullTime(None))
    case (TimeKind, Some(Instant(t))) => Some(NullTime(Some(t)))
    case (BoolKind, None) => Some(NullBool(None))
    case (BoolKind, Some(Flag(b))) => Some(NullBool(Some(b)))
    case (FloatKind, None) => Some(NullFloat(None))
    case (FloatKind, Some(Float(x))) => Some(NullFloat(Some(x)))
    case (BytesKind, None) => Some(ByteSlice(""))
    case (BytesKind, Some(Bytes(text))) => Some(ByteSlice(text))
    case (UnknownKind, _) => Some(Untyped(cell))
    case _ => None
  }

  function Cell(row: Row, c: Column): Option<Value> {
    if c in row then Some(row[c]) else None
  }

  /** The slots one row fills; None if the driver refuses a cell. */
  function ScanRow(row: Row, columns: seq<Column>): (slots: Option<seq<Slot>>)
    ensures slots.Some? ==> |slots.value| == |columns|
  {
    if columns == [] then Some([]) else
      var slot := Scan(ScanKind(columns[0]), Cell(row, columns[0]));
      var rest := ScanRow(row, columns[1..]);
      if slot.None? || rest.None? then None else Some([slot.value] + rest.value)
  }

  datatype AssignError = Mismatch(values: nat, columns: nat) | UnexpectedType(column: Column) | BadJson(column: Column)

  /** The document a field holds. */
  function DocOf(current: Option<Value>): Option<string> {
    if current.Some? && current.value.Json? then Some(current.value.doc) else None
  }

  /**
   * What one case of `assignValues` writes to its field, whose value is `current`; None leaves it as it is. Only the id
   * is written for NULL, and only documents depend on what is there.
   */
  function AssignOne(codec: Codec, current: Option<Value>, c: Column, slot: Slot): Result<Option<Value>, AssignError> {
    if AssignKind(c).None? then Ok(None)
    else if AssignKind(c).value != SlotKind(slot) then Err(UnexpectedType(c))
    else match slot
      case NullInt(n) => Ok(if n.Some? then Some(Int(n.value)) else if c == ID then Some(Int(0)) else None)
      case NullText(s) => Ok(if s.Some? then Some(Text(s.value)) else None)
      case NullTime(t) => Ok(if t.Some? then Some(Instant(t.value)) else None)
      case NullBool(b) => Ok(if b.Some? then Some(Flag(b.value)) else None)
      case NullFloat(x) => Ok(if x.Some? then Some(Float(x.value)) else None)
      case ByteSlice(text) =>
        if text == "" then Ok(None) else
          var doc := codec.unmarshal(DocOf(current), text);
          if doc.Some? then Ok(Some(Json(doc.value))) else Err(BadJson(c))
      case Untyped(_) => Ok(None)
  }

  /** The struct's fields and its dynamically selected values. */
  datatype Struct = Struct(fields: Fields, selected: map<string, Slot>)

  function Put(s: Struct, c: Column, slot: Slot, v: Option<Value>): Struct {
    if c.Other? then s.(selected := s.selected[c.name := slot])
    else if v.Some? then s.(fields := s.fields[c := v.value])
    else s
  }

  /** The assignments from position i on; an error leaves the earlier ones in place. */
  function AssignFrom(codec: Codec, columns: seq<Column>, slots: seq<Slot>, i: nat, s: Struct)
    : (Struct, Option<AssignError>)
    requires i <= |columns| <= |slots|
    decreases |columns| - i
  {
    if i == |columns| then (s, None) else
      match AssignOne(codec, Cell(s.fields, columns[i]), columns[i], slots[i])
      case Err(e) => (s, Some(e))
      case Ok(v) => AssignFrom(codec, columns, slots, i + 1, Put(s, columns[i], slots[i], v))
  }

  class ScannedAccount {
    var fields: Fields
    var selected: map<string, Slot>

    constructor ()
      ensures fields == map[] && selected == map[]
    {
      fields, selected := map[], map[];
    }

    method AssignValues(codec: Codec, columns: seq<Column>, slots: seq<Slot>) returns (err: Option<AssignError>)
      modifies this
      ensures |slots| < |columns| ==>
                err == Some(Mismatch(|slots|, |columns|)) && fields == old(fields) && selected == old(selected)
      ensures |columns| <= |slots| ==>
                (Struct(fields, selected), err)
                == AssignFrom(codec, columns, slots, 0, Struct(old(fields), old(selected)))
    {
      if |slots| < |columns| {
        return Some(Mismatch(|slots|, |columns|));
      }
      for i := 0 to |columns|
        invariant AssignFrom(codec, columns, slots, i, Struct(fields, selected))
               == AssignFrom(codec, columns, slots, 0, Struct(old(fields), old(selected)))
      {
        var c := columns[i];
        match AssignOne(codec, Cell(fields, c), c, slots[i])
        case Err(e) =>
          return Some(e);
        case Ok(v) =>
          if c.Other? {
            selected := selected[c.name := slots[i]];
          } else if v.Some? {
            fields := fields[c := v.value];
          }
      }
      err := None;
    }
  }

  // ---------------------------------------------------------------- the codec's laws

  /**
   * The destinations that `scanValues` makes suit `assignValues`, for every column list, known or unknown columns,
   * repeated or reordered: whatever the driver put into them, no column has an unexpected type.
   */
  lemma {:induction false} NeverUnexpected(codec: Codec, columns: seq<Column>, slots: seq<Slot>, i: nat, s: Struct)
    requires i <= |columns| == |slots|
    requires forall k :: 0 <= k < |columns| ==> SlotKind(slots[k]) == ScanKind(columns[k])
    ensures var err := AssignFrom(codec, columns, slots, i, s).1;
            err.None? || (err.value.BadJson? && (err.value.column == Credentials || err.value.column == Extra))
    decreases |columns| - i
  {
    if i < |columns| {
      var r := AssignOne(codec, Cell(s.fields, columns[i]), columns[i], slots[i]);
      if r.Ok? {
        NeverUnexpected(codec, columns, slots, i + 1, Put(s, columns[i], slots[i], r.value));
      }
    }
  }

  /**
   * What stops an assignment: a destination of another kind than the column's, and a JSON text that does not decode.
   */
  lemma AssignFails(codec: Codec, current: Option<Value>, c: Column, slot: Slot)
    requires !c.Other?
    ensures AssignOne(codec, current, c, slot) == Err(UnexpectedType(c)) <==> SlotKind(slot) != ScanKind(c)
    ensures AssignOne(codec, current, c, slot) == Err(BadJson(c)) <==>
              && (c == Credentials || c == Extra) && slot.ByteSlice? && slot.text != ""
              && codec.unmarshal(
                   if current.Some? && current.value.Json? then Some(current.value.doc) else None, slot.text) == None
    ensures AssignOne(codec, current, c, slot).Err? ==>
              AssignOne(codec, current, c, slot).error in {UnexpectedType(c), BadJson(c)}
  {
  }

  /** A JSON text is decoded into the document that is there, and the field then holds the outcome. */
  lemma JsonMerged(codec: Codec, current: Option<Value>, c: Column, text: string)
    requires (c == Credentials || c == Extra) && text != ""
    ensures var there := if current.Some? && current.value.Json? then Some(current.value.doc) else None;
            AssignOne(codec, current, c, ByteSlice(text))
            == match codec.unmarshal(there, text)
               case Some(doc) => Ok(Some(Json(doc)))
               case None => Err(BadJson(c))
  {
  }

  /** An assignment stops at the first column whose value is bad, and keeps what it had assigned before. */
  lemma {:induction false} StopsThere(codec: Codec, columns: seq<Column>, slots: seq<Slot>, i: nat, n: nat, s: Struct)
    requires i <= n < |columns| <= |slots|
    requires AssignFrom(codec, columns[..n], slots, i, s).1 == None
    ensures var before := AssignFrom(codec, columns[..n], slots, i, s).0;
            var r := AssignOne(codec, Cell(before.fields, columns[n]), columns[n], slots[n]);
            r.Err? ==> AssignFrom(codec, columns, slots, i, s) == (before, Some(r.error))
    decreases n - i
  {
    if i < n {
      var r := AssignOne(codec, Cell(s.fields, columns[i]), columns[i], slots[i]);
      assert columns[..n][i] == columns[i];
      if r.Ok? {
        StopsThere(codec, columns, slots, i + 1, n, Put(s, columns[i], slots[i], r.value));
      }
    }
  }

  /** The value of a column that the program does not know is kept under its name. */
  lemma UnknownSelected(codec: Codec, name: string, slot: Slot, s: Struct)
    ensures AssignFrom(codec, [Other(name)], [slot], 0, s) == (s.(selected := s.selected[name := slot]), None)
  {
    assert AssignFrom(codec, [Other(name)], [slot], 1, Put(s, Other(name), slot, None)).1 == None;
  }

  /** Column k is given its value of `made`, over what is there at first and over that value. */
  ghost predicate Gives(codec: Codec, columns: seq<Column>, slots: seq<Slot>, k: nat, fields: Fields, made: Fields)
    requires k < |columns| == |slots|
  {
    && AssignOne(codec, Cell(fields, columns[k]), columns[k], slots[k]) == Ok(Cell(made, columns[k]))
    && AssignOne(codec, Cell(made, columns[k]), columns[k], slots[k]) == Ok(Cell(made, columns[k]))
  }

  ghost predicate AllGiven(codec: Codec, columns: seq<Column>, slots: seq<Slot>, made: Fields)
    requires |columns| == |slots|
  {
    forall k :: 0 <= k < |columns| ==> Gives(codec, columns, slots, k, map[], made)
  }

  /** When a column always gets the same outcome, each listed column's field ends with it and the others stay. */
  lemma {:induction false} AssignedByColumn(codec: Codec, columns: seq<Column>, slots: seq<Slot>, i: nat, s: Struct,
                                            made: Fields)
    requires i <= |columns| == |slots|
    requires forall k :: 0 <= k < |columns| ==> Gives(codec, columns, slots, k, s.fields, made)
    ensures var (s', err) := AssignFrom(codec, columns, slots, i, s);
            && err == None
            && forall c: Column :: !c.Other? ==>
                 Cell(s'.fields, c) == if c in columns[i..] && c in made then Some(made[c]) else Cell(s.fields, c)
    decreases |columns| - i
  {
    if i < |columns| {
      var next := Put(s, columns[i], slots[i], Cell(made, columns[i]));
      assert Gives(codec, columns, slots, i, s.fields, made);
      forall k | 0 <= k < |columns| ensures Gives(codec, columns, slots, k, next.fields, made) {
        assert Gives(codec, columns, slots, k, s.fields, made);
        assert Cell(next.fields, columns[k]) == Cell(s.fields, columns[k])
               || Cell(next.fields, columns[k]) == Cell(made, columns[k]);
      }
      AssignedByColumn(codec, columns, slots, i + 1, next, made);
      assert columns[i..] == [columns[i]] + columns[i + 1..];
    }
  }

  /** A value that was not written is scanned and assigned as nothing, save the id, which is zero. */
  lemma UnsetReadsBack(codec: Codec, c: Column, current: Option<Value>)
    ensures var slot := Scan(ScanKind(c), None);
            slot.Some? && AssignOne(codec, current, c, slot.value) == Ok(if c == ID then Some(Int(0)) else None)
  {
  }

  /** The kinds that the three parts of the code give a column are those of its Go type. */
  lemma KindsAgree(c: Column, v: Value)
    requires HasGoType(c, v)
    ensures AssignKind(c) == Some(ScanKind(c))
    ensures SpecKind(c) == if c == ID || c == ProxyID || c == ParentAccountID then None else Some(ScanKind(c))
    ensures match ScanKind(c)
            case IntKind => v.Int? case TextKind => v.Text? case TimeKind => v.Instant? case BoolKind => v.Flag?
            case FloatKind => v.Float? case BytesKind => v.Json? case UnknownKind => false
  {
  }

  /** A value that was written is scanned and assigned back. */
  lemma SetReadsBack(codec: Codec, c: Column, v: Value, current: Option<Value>)
    requires RoundTrips(codec) && HasGoType(c, v) && (current == None || current == Some(v))
    ensures var slot := Scan(ScanKind(c), Some(Encode(codec, ScanKind(c), v)));
            slot.Some? && AssignOne(codec, current, c, slot.value) == Ok(Some(v))
  {
    KindsAgree(c, v);
  }

  /** One column of an inserted row is scanned and assigned back to the value of the mutation. */
  lemma CellReadsBack(codec: Codec, m: Fields, id: int, c: Column)
    requires RoundTrips(codec) && TypedMutation(m)
    ensures var slot := Scan(ScanKind(c), Cell(InsertedRow(codec, m, id), c));
            var made := Cell(CreatedNode(m)[ID := Int(id)], c);
            && slot.Some?
            && AssignOne(codec, None, c, slot.value) == Ok(made)
            && AssignOne(codec, made, c, slot.value) == Ok(made)
  {
    if c == ID || c in m {
      var v := if c == ID then Int(id) else m[c];
      assert HasGoType(c, v);
      KindsAgree(c, v);
      SetReadsBack(codec, c, v, None);
      SetReadsBack(codec, c, v, Some(v));
    } else {
      UnsetReadsBack(codec, c, None);
    }
  }

  lemma {:induction false} RowScans(codec: Codec, m: Fields, id: int, columns: seq<Column>)
    requires RoundTrips(codec) && TypedMutation(m)
    ensures var slots := ScanRow(InsertedRow(codec, m, id), columns);
            slots.Some? && AllGiven(codec, columns, slots.value, CreatedNode(m)[ID := Int(id)])
  {
    if columns != [] {
      var made := CreatedNode(m)[ID := Int(id)];
      CellReadsBack(codec, m, id, columns[0]);
      RowScans(codec, m, id, columns[1..]);
      var row := InsertedRow(codec, m, id);
      var slots, rest := ScanRow(row, columns).value, ScanRow(row, columns[1..]).value;
      forall k | 0 <= k < |columns| ensures Gives(codec, columns, slots, k, map[], made) {
        if k > 0 {
          assert Gives(codec, columns[1..], rest, k - 1, map[], made);
        }
      }
    }
  }

  /**
   * The row inserted for a mutation reads back, through any column list in any order and with repetitions: every
   * listed column's field is the one `createSpec` gave its node, the id the one the database picked, and the fields
   * of columns that are not listed keep their zero value.
   */
  lemma RowReadsBack(codec: Codec, m: Fields, id: int, columns: seq<Column>)
    requires RoundTrips(codec) && TypedMutation(m)
    ensures var slots := ScanRow(InsertedRow(codec, m, id), columns);
            && slots.Some?
            && var (s, err) := AssignFrom(codec, columns, slots.value, 0, Struct(map[], map[]));
            && err == None
            && forall c: Column :: !c.Other? ==>
                 Cell(s.fields, c) == if c in columns then Cell(CreatedNode(m)[ID := Int(id)], c) else None
  {
    RowScans(codec, m, id, columns);
    var slots := ScanRow(InsertedRow(codec, m, id), columns).value;
    AssignedByColumn(codec, columns, slots, 0, Struct(map[], map[]), CreatedNode(m)[ID := Int(id)]);
    assert columns[0..] == columns;
  }

  const AllColumns := [
    ID, CreatedAt, UpdatedAt, DeletedAt, Name, Notes, Platform, Type, Credentials, Extra, ProxyID,
    ProxyFallbackOriginID, Concurrency, LoadFactor, Priority, RateMultiplier, Status, ErrorMessage, LastUsedAt,
    ExpiresAt, AutoPauseOnExpired, Schedulable, RateLimitedAt, RateLimitResetAt, OverloadUntil, TempUnschedulableUntil,
    TempUnschedulableReason, SessionWindowStart, SessionWindowEnd, SessionWindowStatus, ParentAccountID, QuotaDimension]

  lemma AllKnown()
    ensures forall c :: c in AllColumns ==> !c.Other?
  {
  }

  /** The place of a known column in the list. */
  function Place(c: Column): nat
    requires !c.Other?
  {
    match c
    case ID => 0 case CreatedAt => 1 case UpdatedAt => 2 case DeletedAt => 3 case Name => 4 case Notes => 5
    case Platform => 6 case Type => 7 case Credentials => 8 case Extra => 9 case ProxyID => 10
    case ProxyFallbackOriginID => 11 case Concurrency => 12 case LoadFactor => 13 case Priority => 14
    case RateMultiplier => 15 case Status => 16 case ErrorMessage => 17 case LastUsedAt => 18 case ExpiresAt => 19
    case AutoPauseOnExpired => 20 case Schedulable => 21 case RateLimitedAt => 22 case RateLimitResetAt => 23
    case OverloadUntil => 24 case TempUnschedulableUntil => 25 case TempUnschedulableReason => 26
    case SessionWindowStart => 27 case SessionWindowEnd => 28 case SessionWindowStatus => 29
    case ParentAccountID => 30 case QuotaDimension => 31
  }

  lemma FirstListed(c: Column)
    requires !c.Other? && Place(c) < 16
    ensures AllColumns[Place(c)] == c
  {
  }

  lemma LaterListed(c: Column)
    requires !c.Other? && Place(c) >= 16
    ensures Place(c) < |AllColumns| && AllColumns[Place(c)] == c
  {
  }

  lemma AllListed(c: Column)
    requires !c.Other?
    ensures c in AllColumns
  {
    if Place(c) < 16 {
      FirstListed(c);
    } else {
      LaterListed(c);
    }
  }

  /** Known columns touch no selected value, and no assignment makes a field of an unknown one. */
  lemma {:induction false} OnlyKnown(codec: Codec, columns: seq<Column>, slots: seq<Slot>, i: nat, s: Struct)
    requires i <= |columns| <= |slots|
    requires forall c :: c in columns ==> !c.Other?
    requires forall c :: c in s.fields ==> !c.Other?
    ensures var s' := AssignFrom(codec, columns, slots, i, s).0;
            s'.selected == s.selected && forall c :: c in s'.fields ==> !c.Other?
    decreases |columns| - i
  {
    if i < |columns| {
      var r := AssignOne(codec, Cell(s.fields, columns[i]), columns[i], slots[i]);
      if r.Ok? {
        OnlyKnown(codec, columns, slots, i + 1, Put(s, columns[i], slots[i], r.value));
      }
    }
  }

  /** Every column of the table, and no other, in any order and any number of times. */
  ghost predicate ListsAll(columns: seq<Column>) {
    forall c: Column :: c in columns <==> !c.Other?
  }

  lemma AllColumnsListed()
    ensures ListsAll(AllColumns)
  {
    var columns := AllColumns;
    assert forall c: Column :: !c.Other? ==> c in columns by {
      forall c: Column | !c.Other? ensures c in columns {
        AllListed(c);
      }
    }
    assert forall c :: c in columns ==> !c.Other? by {
      AllKnown();
    }
  }

  lemma SameCells(a: Fields, b: Fields)
    requires forall c: Column :: Cell(a, c) == Cell(b, c)
    ensures a == b
  {
    forall c: Column ensures (c in a <==> c in b) && (c in a ==> a[c] == b[c]) {
      assert Cell(a, c) == Cell(b, c);
    }
  }

  /** Every field a typed mutation sets reaches the node. */
  lemma CreatedNodeIsMutation(m: Fields)
    requires TypedMutation(m)
    ensures CreatedNode(m) == m
  {
    forall c | c in m ensures c in CreatedNode(m) {
      assert HasGoType(c, m[c]);
    }
  }

  /**
   * Reading all columns of the row inserted for a mutation, in any order, rebuilds the node `createSpec` returned, with
   * its id.
   */
  lemma NodeReadsBack(codec: Codec, m: Fields, id: int, columns: seq<Column>)
    requires RoundTrips(codec) && TypedMutation(m)
    requires ListsAll(columns)
    ensures var slots := ScanRow(InsertedRow(codec, m, id), columns);
            && slots.Some?
            && AssignFrom(codec, columns, slots.value, 0, Struct(map[], map[]))
               == (Struct(m[ID := Int(id)], map[]), None)
  {
    RowReadsBack(codec, m, id, columns);
    var slots := ScanRow(InsertedRow(codec, m, id), columns).value;
    var s := AssignFrom(codec, columns, slots, 0, Struct(map[], map[])).0;
    CreatedNodeIsMutation(m);
    OnlyKnown(codec, columns, slots, 0, Struct(map[], map[]));
    forall c: Column ensures Cell(s.fields, c) == Cell(m[ID := Int(id)], c) {
      if c in m {
        assert HasGoType(c, m[c]);
      }
    }
    SameCells(s.fields, m[ID := Int(id)]);
  }
}
