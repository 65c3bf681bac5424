/** The records a Bugzilla reply decodes into: the polymorphic `OneOrMany`
    field, `Flag`, `User`, `Bug` and the `Response` envelope, each with the
    decoding rule its serde derive gives it and an `extra` map that keeps every
    key no named field consumes. */
module BugModel {
  import opened Results
  import opened Json
  import opened Text

  newtype i32 = x: int | -0x8000_0000 <= x < 0x8000_0000
  newtype u32 = x: int | 0 <= x < 0x1_0000_0000

  /** Why a JSON value does not decode into the record it should. */
  datatype DecodeError =
    | MissingField(field: string)
    | InvalidType(field: string)
    | NoVariantMatches(enumName: string)

  // ---------------------------------------------------------------------------
  // OneOrMany

  /** A field that some Bugzilla instances send as a single string and others
      as a list of strings (component, version, alias). */
  datatype OneOrMany = None | One(s: string) | Many(v: seq<string>) {

    /** Every item in one list, whatever shape the server used. */
    function IntoVec(): (items: seq<string>)
      ensures this.None? ==> items == []
      ensures this.One? ==> items == [s]
      ensures this.Many? ==> items == v
    {
      match this
      case None => []
      case One(s) => [s]
      case Many(v) => v
    }
  }

  /** The JSON a server sends for each variant. */
  function ToJson(x: OneOrMany): (v: Value)
  {
    match x
    case None => Null
    case One(s) => Str(s)
    case Many(items) => Array(seq(|items|, i requires 0 <= i < |items| => Str(items[i])))
  }

  /** The strings of an array whose every element is a string. */
  function Strings(items: seq<Value>): (r: Option<seq<string>>)
    ensures r.Some? <==> forall i :: 0 <= i < |items| ==> items[i].Str?
    ensures r.Some? ==> |r.value| == |items|
    ensures r.Some? ==> forall i :: 0 <= i < |items| ==> r.value[i] == items[i].s
  {
    if |items| == 0 then Some([])
    else if !items[0].Str? then Option.None
    else
      match Strings(items[1..])
      case Some(rest) => Some([items[0].s] + rest)
      case None => Option.None
  }

  /** The untagged decoding: the variants are tried in order, so `null`
      gives `None`, a string gives `One` and an array of strings gives
      `Many`; any other shape matches no variant. */
  function DecodeOneOrMany(v: Value): (r: Result<OneOrMany, DecodeError>)
    ensures r.Ok? <==>
      v.Null? || v.Str? || (v.Array? && forall i :: 0 <= i < |v.items| ==> v.items[i].Str?)
    ensures r.Ok? ==> ToJson(r.value) == v
  {
    match v
    case Null => Ok(OneOrMany.None)
    case Str(s) => Ok(One(s))
    case Array(items) =>
      (match Strings(items)
       case Some(ss) =>
         assert ToJson(Many(ss)).items == items;
         Ok(Many(ss))
       case None => Err(NoVariantMatches("OneOrMany")))
    case _ => Err(NoVariantMatches("OneOrMany"))
  }

  /** Every variant survives the trip through its JSON shape. */
  lemma DecodeToJson(x: OneOrMany)
    ensures DecodeOneOrMany(ToJson(x)) == Ok(x)
  {
    if x.Many? {
      var items := ToJson(x).items;
      assert forall i :: 0 <= i < |items| ==> items[i] == Str(x.v[i]);
      assert Strings(items).value == x.v;
    }
  }

  /** Normalising a decoded field lists exactly the strings the server sent,
      in the order it sent them. */
  lemma IntoVecOfDecoded(v: Value)
    requires DecodeOneOrMany(v).Ok?
    ensures var xs := DecodeOneOrMany(v).value.IntoVec();
      && (v.Null? ==> xs == [])
      && (v.Str? ==> xs == [v.s])
      && (v.Array? ==> |xs| == |v.items| && forall i :: 0 <= i < |xs| ==> Str(xs[i]) == v.items[i])
  {
  }

  /** Equality is structural: `One(s)` and `Many([s])` differ although they
      normalise to the same list. */
  lemma IntoVecNotInjective(s: string)
    ensures One(s) != Many([s]) && One(s).IntoVec() == Many([s]).IntoVec()
  {
  }

  // ---------------------------------------------------------------------------
  // Field access, following the serde derive

  /** A JSON string under `key`. */
  predicate HasString(fields: map<string, Value>, key: string)
  {
    key in fields && fields[key].Str?
  }

  /** A JSON number under `key` that fits an `i32`. */
  predicate HasI32(fields: map<string, Value>, key: string)
  {
    key in fields && fields[key].Number? && -0x8000_0000 <= fields[key].n < 0x8000_0000
  }

  /** A value under `key` that decodes as a `OneOrMany`. */
  predicate HasOneOrMany(fields: map<string, Value>, key: string)
  {
    key in fields && DecodeOneOrMany(fields[key]).Ok?
  }

  /** An `Option<String>` field that decodes: absent, `null` or a string. */
  predicate MaybeString(fields: map<string, Value>, key: string)
  {
    key !in fields || fields[key].Null? || fields[key].Str?
  }

  /** An `Option<u32>` field that decodes: absent, `null` or a number that
      fits a `u32`. */
  predicate MaybeU32(fields: map<string, Value>, key: string)
  {
    key !in fields || fields[key].Null? || (fields[key].Number? && 0 <= fields[key].n < 0x1_0000_0000)
  }

  function Field(fields: map<string, Value>, key: string): (r: Result<Value, DecodeError>)
    ensures r.Ok? <==> key in fields
    ensures r.Ok? ==> r.value == fields[key]
    ensures r.Err? ==> r.error == MissingField(key)
  {
    if key in fields then Ok(fields[key]) else Err(MissingField(key))
  }

  /** An `Option<T>` field: an absent key and `null` both mean `None`. */
  function OptionalField(fields: map<string, Value>, key: string): (r: Option<Value>)
    ensures r.None? <==> key !in fields || fields[key].Null?
    ensures r.Some? ==> key in fields && r.value == fields[key] && !r.value.Null?
  {
    if key in fields && !fields[key].Null? then Some(fields[key]) else Option.None
  }

  /** The first of `keys`, in declaration order, that the object lacks. */
  function Require(fields: map<string, Value>, keys: seq<string>): (r: Result<(), DecodeError>)
    ensures r.Ok? <==> forall i :: 0 <= i < |keys| ==> keys[i] in fields
    ensures r.Err? ==> r.error.MissingField? && r.error.field in keys && r.error.field !in fields
  {
    if |keys| == 0 then Ok(())
    else if keys[0] !in fields then Err(MissingField(keys[0]))
    else Require(fields, keys[1..])
  }

  function StringField(fields: map<string, Value>, key: string): (r: Result<string, DecodeError>)
    ensures r.Ok? <==> HasString(fields, key)
    ensures r.Ok? ==> fields[key] == Str(r.value)
  {
    var v :- Field(fields, key);
    if v.Str? then Ok(v.s) else Err(InvalidType(key))
  }

  function I32Field(fields: map<string, Value>, key: string): (r: Result<i32, DecodeError>)
    ensures r.Ok? <==> HasI32(fields, key)
    ensures r.Ok? ==> fields[key] == Number(r.value as int)
  {
    var v :- Field(fields, key);
    if v.Number? && -0x8000_0000 <= v.n < 0x8000_0000 then Ok(v.n as i32) else Err(InvalidType(key))
  }

  function OneOrManyField(fields: map<string, Value>, key: string): (r: Result<OneOrMany, DecodeError>)
    ensures r.Ok? <==> HasOneOrMany(fields, key)
    ensures r.Ok? ==> ToJson(r.value) == fields[key]
  {
    var v :- Field(fields, key);
    DecodeOneOrMany(v)
  }

  function OptionalStringField(fields: map<string, Value>, key: string): (r: Result<Option<string>, DecodeError>)
    ensures r.Ok? <==> MaybeString(fields, key)
    ensures r.Ok? ==> (r.value.None? <==> key !in fields || fields[key].Null?)
    ensures r.Ok? && r.value.Some? ==> fields[key] == Str(r.value.value)
  {
    match OptionalField(fields, key)
    case None => Ok(Option.None)
    case Some(v) => if v.Str? then Ok(Some(v.s)) else Err(InvalidType(key))
  }

  function OptionalU32Field(fields: map<string, Value>, key: string): (r: Result<Option<u32>, DecodeError>)
    ensures r.Ok? <==> MaybeU32(fields, key)
    ensures r.Ok? ==> (r.value.None? <==> key !in fields || fields[key].Null?)
    ensures r.Ok? && r.value.Some? ==> fields[key] == Number(r.value.value as int)
  {
    match OptionalField(fields, key)
    case None => Ok(Option.None)
    case Some(v) =>
      if v.Number? && 0 <= v.n < 0x1_0000_0000 then Ok(Some(v.n as u32)) else Err(InvalidType(key))
  }

  /** A JSON array decoded element by element; the first failure fails the
      whole array. */
  function DecodeArray<T>(items: seq<Value>, decode: Value -> Result<T, DecodeError>): (r: Result<seq<T>, DecodeError>)
    ensures r.Ok? <==> forall i :: 0 <= i < |items| ==> decode(items[i]).Ok?
    ensures r.Ok? ==> |r.value| == |items|
    ensures r.Ok? ==> forall i :: 0 <= i < |items| ==> decode(items[i]) == Ok(r.value[i])
  {
    if |items| == 0 then Ok([])
    else
      var first :- decode(items[0]);
      var rest :- DecodeArray(items[1..], decode);
      Ok([first] + rest)
  }

  // ---------------------------------------------------------------------------
  // Flag

  /** A timestamp as the server wrote it. */
  datatype Timestamp = Timestamp(text: string)

  function TimestampField(fields: map<string, Value>, key: string): (r: Result<Timestamp, DecodeError>)
    ensures r.Ok? <==> HasString(fields, key)
    ensures r.Ok? ==> fields[key] == Str(r.value.text)
  {
    var s :- StringField(fields, key);
    Ok(Timestamp(s))
  }

  /** A named status marker on a bug, such as `needinfo: ?`. */
  datatype Flag = Flag(
    id: i32,
    typeId: i32,
    creationDate: Timestamp,
    modificationDate: Timestamp,
    name: string,
    status: string,
    setter: string,
    requestee: Option<string>,
    extra: map<string, Value>)
  {
    /** The `Display` format, `name: status`. */
    function Display(): (text: string)
      ensures |text| == |name| + 2 + |status|
      ensures text[..|name|] == name && text[|name|..|name| + 2] == ": " && text[|name| + 2..] == status
    {
      name + ": " + status
    }
  }

  const FlagKeys: set<string> :=
    {"id", "type_id", "creation_date", "modification_date", "name", "status", "setter", "requestee"}

  /** An object that decodes as a flag: every named field present with its
      declared type, except `requestee`, which may be absent or `null`. */
  predicate FlagShape(v: Value)
  {
    && v.Object?
    && HasI32(v.fields, "id") && HasI32(v.fields, "type_id")
    && HasString(v.fields, "creation_date") && HasString(v.fields, "modification_date")
    && HasString(v.fields, "name") && HasString(v.fields, "status") && HasString(v.fields, "setter")
    && MaybeString(v.fields, "requestee")
  }

  function DecodeFlag(v: Value): (r: Result<Flag, DecodeError>)
    ensures r.Ok? <==> FlagShape(v)
    ensures r.Ok? ==> v.Object? && r.value.extra == Extra(v.fields, FlagKeys)
    ensures r.Ok? ==> "name" in v.fields && v.fields["name"] == Str(r.value.name)
    ensures r.Ok? ==> "status" in v.fields && v.fields["status"] == Str(r.value.status)
    ensures r.Ok? ==> "id" in v.fields && v.fields["id"] == Number(r.value.id as int)
    ensures r.Ok? ==> "type_id" in v.fields && v.fields["type_id"] == Number(r.value.typeId as int)
    ensures r.Ok? ==> "creation_date" in v.fields && v.fields["creation_date"] == Str(r.value.creationDate.text)
    ensures r.Ok? ==>
      "modification_date" in v.fields && v.fields["modification_date"] == Str(r.value.modificationDate.text)
    ensures r.Ok? ==> "setter" in v.fields && v.fields["setter"] == Str(r.value.setter)
    ensures r.Ok? ==> OptionalStringField(v.fields, "requestee") == Ok(r.value.requestee)
  {
    if !v.Object? then Err(InvalidType("Flag"))
    else
      var fields := v.fields;
      var id :- I32Field(fields, "id");
      var typeId :- I32Field(fields, "type_id");
      var created :- TimestampField(fields, "creation_date");
      var modified :- TimestampField(fields, "modification_date");
      var name :- StringField(fields, "name");
      var status :- StringField(fields, "status");
      var setter :- StringField(fields, "setter");
      var requestee :- OptionalStringField(fields, "requestee");
      Ok(Flag(id, typeId, created, modified, name, status, setter, requestee, Extra(fields, FlagKeys)))
  }

  /** The display of a flag separates its name from its status at the only
      colon, when neither contains one. */
  lemma {:induction false} DisplaySplitsAtColon(f: Flag)
    requires ':' !in f.name && ':' !in f.status
    ensures Split(f.Display(), ':') == [f.name, " " + f.status]
  {
    assert f.Display() == f.name + [':'] + (" " + f.status);
    SplitAround(f.name, ':', " " + f.status);
    SplitWithout(f.name, ':');
    SplitWithout(" " + f.status, ':');
  }

  // ---------------------------------------------------------------------------
  // User

  /** A Bugzilla account. */
  datatype User = User(email: string, id: i32, name: string, realName: string, extra: map<string, Value>)

  const UserKeys: set<string> := {"email", "id", "name", "real_name"}

  /** An object that decodes as a user: every named field present with its
      declared type. */
  predicate UserShape(v: Value)
  {
    && v.Object?
    && HasString(v.fields, "email") && HasI32(v.fields, "id")
    && HasString(v.fields, "name") && HasString(v.fields, "real_name")
  }

  function DecodeUser(v: Value): (r: Result<User, DecodeError>)
    ensures r.Ok? <==> UserShape(v)
    ensures r.Ok? ==> v.Object? && r.value.extra == Extra(v.fields, UserKeys)
    ensures r.Ok? ==> "email" in v.fields && v.fields["email"] == Str(r.value.email)
    ensures r.Ok? ==> "id" in v.fields && v.fields["id"] == Number(r.value.id as int)
    ensures r.Ok? ==> "name" in v.fields && v.fields["name"] == Str(r.value.name)
    ensures r.Ok? ==> "real_name" in v.fields && v.fields["real_name"] == Str(r.value.realName)
  {
    if !v.Object? then Err(InvalidType("User"))
    else
      var fields := v.fields;
      var email :- StringField(fields, "email");
      var id :- I32Field(fields, "id");
      var name :- StringField(fields, "name");
      var realName :- StringField(fields, "real_name");
      Ok(User(email, id, name, realName, Extra(fields, UserKeys)))
  }

  // ---------------------------------------------------------------------------
  // Bug

  /** A bug, with the fields the model follows; the other named fields are
      consumed (so they never reach `extra`) but not kept. */
  datatype Bug = Bug(
    alias: OneOrMany,
    id: i32,
    creatorDetail: User,
    summary: string,
    status: string,
    component: OneOrMany,
    version: OneOrMany,
    flags: Option<seq<Flag>>,
    extra: map<string, Value>)

  /** The named fields that are not `Option`s, in declaration order: a bug
      object without one of them does not decode. */
  const RequiredBugKeys: seq<string> := RequiredKeysHead + RequiredKeysMiddle + RequiredKeysTail

  // The list is written in three parts so that a proof about one part only
  // has to look at eleven literals.
  const RequiredKeysHead: seq<string> := [
    "alias", "op_sys", "classification", "id", "url", "creator", "creator_detail",
    "summary", "status", "target_milestone", "cc"]
  const RequiredKeysMiddle: seq<string> := [
    "cc_detail", "is_open", "is_creator_accessible", "assigned_to", "assigned_to_detail",
    "resolution", "severity", "product", "platform", "last_change_time", "priority"]
  const RequiredKeysTail: seq<string> := [
    "whiteboard", "creation_time", "is_confirmed", "qa_contact", "component",
    "is_cc_accessible", "version", "keywords", "depends_on", "blocks", "groups"]

  /** The named fields of type `Option<...>`: absent or `null` means `None`. */
  const OptionalBugKeys: set<string> := {
    "estimated_time", "docs_contact", "docs_contact_detail", "remaining_time",
    "qa_contact_detail", "dupe_of", "target_release", "actual_time", "see_also",
    "deadline", "update_token", "work_time", "flags", "tags", "dependent_products"}

  /** Every named field of the bug record. */
  const BugKeys: set<string> := (set k | k in RequiredBugKeys) + OptionalBugKeys

  /** `flags` decodes when it is absent or `null` (it is only sent when the
      request asked for it) or an array of flag objects. */
  predicate FlagsShape(fields: map<string, Value>)
  {
    || "flags" !in fields
    || fields["flags"].Null?
    || (fields["flags"].Array? &&
        forall i :: 0 <= i < |fields["flags"].items| ==> DecodeFlag(fields["flags"].items[i]).Ok?)
  }

  function FlagsField(fields: map<string, Value>): (r: Result<Option<seq<Flag>>, DecodeError>)
    ensures r.Ok? <==> FlagsShape(fields)
    ensures ("flags" !in fields || fields["flags"].Null?) ==> r == Ok(Option.None)
    ensures r.Ok? ==> (r.value.Some? <==> "flags" in fields && !fields["flags"].Null?)
    ensures r.Ok? && r.value.Some? ==>
      && "flags" in fields && fields["flags"].Array?
      && |r.value.value| == |fields["flags"].items|
      && forall i :: 0 <= i < |r.value.value| ==> DecodeFlag(fields["flags"].items[i]) == Ok(r.value.value[i])
  {
    match OptionalField(fields, "flags")
    case None => Ok(Option.None)
    case Some(v) =>
      if !v.Array? then Err(InvalidType("flags"))
      else
        var flags :- DecodeArray(v.items, DecodeFlag);
        Ok(Some(flags))
  }

  /** An object that decodes as a bug: every required key present, the
      modelled fields of their declared shape, and `flags` decodable. */
  predicate BugShape(v: Value)
  {
    && v.Object?
    && (forall i :: 0 <= i < |RequiredBugKeys| ==> RequiredBugKeys[i] in v.fields)
    && HasOneOrMany(v.fields, "alias")
    && HasI32(v.fields, "id")
    && "creator_detail" in v.fields && UserShape(v.fields["creator_detail"])
    && HasString(v.fields, "summary") && HasString(v.fields, "status")
    && HasOneOrMany(v.fields, "component") && HasOneOrMany(v.fields, "version")
    && FlagsShape(v.fields)
  }

  /** A bug object decodes only when every required key is present and the
      modelled fields have their declared shape; the result holds what the
      server sent under each named key. */
  function DecodeBug(v: Value): (r: Result<Bug, DecodeError>)
    ensures r.Ok? ==> v.Object? && r.value.extra == Extra(v.fields, BugKeys)
    ensures r.Ok? ==> "id" in v.fields && v.fields["id"] == Number(r.value.id as int)
    ensures r.Ok? ==> "status" in v.fields && v.fields["status"] == Str(r.value.status)
    ensures r.Ok? ==> "summary" in v.fields && v.fields["summary"] == Str(r.value.summary)
    ensures r.Ok? ==> "alias" in v.fields && v.fields["alias"] == ToJson(r.value.alias)
    ensures r.Ok? ==> "component" in v.fields && v.fields["component"] == ToJson(r.value.component)
    ensures r.Ok? ==> "version" in v.fields && v.fields["version"] == ToJson(r.value.version)
    ensures r.Ok? ==> (r.value.flags.Some? <==> "flags" in v.fields && !v.fields["flags"].Null?)
    ensures r.Ok? ==> FlagsField(v.fields) == Ok(r.value.flags)
    ensures r.Ok? ==> "creator_detail" in v.fields && DecodeUser(v.fields["creator_detail"]) == Ok(r.value.creatorDetail)
  {
    if !v.Object? then Err(InvalidType("Bug"))
    else
      var fields := v.fields;
      var _ :- Require(fields, RequiredBugKeys);
      var alias :- OneOrManyField(fields, "alias");
      var id :- I32Field(fields, "id");
      var creatorValue :- Field(fields, "creator_detail");
      var creatorDetail :- DecodeUser(creatorValue);
      var summary :- StringField(fields, "summary");
      var status :- StringField(fields, "status");
      var component :- OneOrManyField(fields, "component");
      var version :- OneOrManyField(fields, "version");
      var flags :- FlagsField(fields);
      Ok(Bug(alias, id, creatorDetail, summary, status, component, version, flags, Extra(fields, BugKeys)))
  }

  /** Exactly the objects of the bug shape decode. */
  lemma DecodeBugShape(v: Value)
    ensures DecodeBug(v).Ok? <==> BugShape(v)
  {
  }

  /** The flags of a decoded bug are the flag objects the server sent under
      `flags`, one for one and in the server's order. */
  lemma BugFlagsFromServer(v: Value)
    requires DecodeBug(v).Ok? && DecodeBug(v).value.flags.Some?
    ensures var flags := DecodeBug(v).value.flags.value;
      && "flags" in v.fields && v.fields["flags"].Array?
      && |flags| == |v.fields["flags"].items|
      && forall i :: 0 <= i < |flags| ==> DecodeFlag(v.fields["flags"].items[i]) == Ok(flags[i])
  {
    var decoded := FlagsField(v.fields);
    assert decoded.Ok? && decoded.value == DecodeBug(v).value.flags;
  }

  /** An object that lacks a required key is refused; the model reports a
      missing required key as its error. */
  lemma MissingRequiredKey(v: Value, key: string)
    requires v.Object? && key in RequiredBugKeys && key !in v.fields
    ensures DecodeBug(v).Err? && DecodeBug(v).error.MissingField?
    ensures DecodeBug(v).error.field in RequiredBugKeys
  {
    var r := Require(v.fields, RequiredBugKeys);
    assert r.Err?;
  }

  /** A decoded bug keeps every key no named field consumes, with its value
      exactly as sent, and nothing else. */
  lemma BugExtraPassthrough(v: Value, key: string)
    requires DecodeBug(v).Ok?
    ensures var extra := DecodeBug(v).value.extra;
      && (key in extra <==> key in v.fields && key !in BugKeys)
      && (key in extra ==> extra[key] == v.fields[key])
  {
  }

  /** Custom fields of a Bugzilla installation are named `cf_...` (Red Hat's
      `cf_release_notes`, for one); no named field of the bug starts so. */
  lemma CustomKeyIsUnnamed(key: string)
    requires |key| >= 3 && key[..3] == "cf_"
    ensures key !in BugKeys
  {
    assert key[1] == key[..3][1] == 'f';
    NamedKeyShape(key);
  }

  lemma NamedKeyShape(key: string)
    ensures key in BugKeys ==> |key| >= 2 && key[1] != 'f'
  {
    RequiredKeyShape(key);
    OptionalKeyShape(key);
  }

  lemma RequiredKeyShape(key: string)
    ensures key in RequiredBugKeys ==> |key| >= 2 && key[1] != 'f'
  {
    HeadKeyShape(key);
    MiddleKeyShape(key);
    TailKeyShape(key);
  }

  lemma HeadKeyShape(key: string)
    ensures key in RequiredKeysHead ==> |key| >= 2 && key[1] != 'f'
  {
  }

  lemma MiddleKeyShape(key: string)
    ensures key in RequiredKeysMiddle ==> |key| >= 2 && key[1] != 'f'
  {
  }

  lemma TailKeyShape(key: string)
    ensures key in RequiredKeysTail ==> |key| >= 2 && key[1] != 'f'
  {
  }

  lemma OptionalKeyShape(key: string)
    ensures key in OptionalBugKeys ==> |key| >= 2 && key[1] != 'f'
  {
  }

  /** So a custom field reaches `extra` with its value unchanged, line
      endings included. */
  lemma CustomFieldInExtra(v: Value, key: string)
    requires DecodeBug(v).Ok? && key in v.fields
    requires |key| >= 3 && key[..3] == "cf_"
    ensures var extra := DecodeBug(v).value.extra;
      key in extra && extra[key] == v.fields[key]
  {
    CustomKeyIsUnnamed(key);
  }

  // ---------------------------------------------------------------------------
  // Response

  /** The reply envelope: the bugs plus optional paging metadata. */
  datatype Response = Response(
    offset: Option<u32>,
    limit: Option<string>,
    totalMatches: Option<u32>,
    bugs: seq<Bug>,
    extra: map<string, Value>)

  const ResponseKeys: set<string> := {"offset", "limit", "total_matches", "bugs"}

  /** A reply that decodes: the paging metadata absent, `null` or of its
      declared type, and a `bugs` array whose every element decodes. */
  predicate ResponseShape(body: Value)
  {
    && body.Object?
    && MaybeU32(body.fields, "offset") && MaybeString(body.fields, "limit")
    && MaybeU32(body.fields, "total_matches")
    && "bugs" in body.fields && body.fields["bugs"].Array?
    && forall i :: 0 <= i < |body.fields["bugs"].items| ==> DecodeBug(body.fields["bugs"].items[i]).Ok?
  }

  function DecodeResponse(body: Value): (r: Result<Response, DecodeError>)
    ensures r.Ok? <==> ResponseShape(body)
    ensures r.Ok? ==> body.Object? && r.value.extra == Extra(body.fields, ResponseKeys)
  {
    if !body.Object? then Err(InvalidType("Response"))
    else
      var fields := body.fields;
      var offset :- OptionalU32Field(fields, "offset");
      var limit :- OptionalStringField(fields, "limit");
      var totalMatches :- OptionalU32Field(fields, "total_matches");
      var list :- Field(fields, "bugs");
      if !list.Array? then Err(InvalidType("bugs"))
      else
        var bugs :- DecodeArray(list.items, DecodeBug);
        Ok(Response(offset, limit, totalMatches, bugs, Extra(fields, ResponseKeys)))
  }

  /** The decoded bugs are the server's bug objects, one for one and in the
      server's order; a reply decodes only if every bug object does. */
  lemma ResponseKeepsServerOrder(body: Value)
    requires DecodeResponse(body).Ok?
    ensures var bugs := DecodeResponse(body).value.bugs;
      && "bugs" in body.fields && body.fields["bugs"].Array?
      && |bugs| == |body.fields["bugs"].items|
      && forall i :: 0 <= i < |bugs| ==> DecodeBug(body.fields["bugs"].items[i]) == Ok(bugs[i])
  {
  }
}
