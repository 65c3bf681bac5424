/** Convenience queries on a decoded bug. */
module BugMethods {
  import opened Results
  import opened Json
  import opened BugModel

  /** The status of the first flag named `name`, scanning in list order, as
      an iterator's `find` does. */
  function FindFlag(flags: seq<Flag>, name: string): (r: Option<string>)
    ensures r.None? <==> forall i :: 0 <= i < |flags| ==> flags[i].name != name
    ensures r.Some? ==>
      exists i :: 0 <= i < |flags| && flags[i].name == name && r.value == flags[i].status &&
        forall j :: 0 <= j < i ==> flags[j].name != name
  {
    if |flags| == 0 then Option.None
    else if flags[0].name == name then Some(flags[0].status)
    else FindFlag(flags[1..], name)
  }

  /** The status of the flag named `name` on the bug. The bug must carry its
      flags, which the server sends only when they were requested: reading
      flags of a bug without them is a programming error. */
  function GetFlag(bug: Bug, name: string): (r: Option<string>)
    requires bug.flags.Some?
    ensures r.None? <==> forall f :: f in bug.flags.value ==> f.name != name
    ensures r.Some? ==> exists f :: f in bug.flags.value && f.name == name && f.status == r.value
    ensures forall i :: 0 <= i < |bug.flags.value| && bug.flags.value[i].name == name ==>
      r.Some? && exists j :: 0 <= j <= i && bug.flags.value[j].name == name && r.value == bug.flags.value[j].status
  {
    FindFlag(bug.flags.value, name)
  }

  /** On a bug decoded from a server reply, a flag status found by name is
      the status string of a flag object the server sent under that name. */
  lemma FlagStatusFromServer(v: Value, name: string)
    requires DecodeBug(v).Ok? && DecodeBug(v).value.flags.Some?
    ensures var r := GetFlag(DecodeBug(v).value, name);
      r.Some? ==>
        && "flags" in v.fields && v.fields["flags"].Array?
        && exists i :: 0 <= i < |v.fields["flags"].items| &&
             var item := v.fields["flags"].items[i];
             item.Object? && "name" in item.fields && item.fields["name"] == Str(name) &&
             "status" in item.fields && item.fields["status"] == Str(r.value)
  {
    var flags := DecodeBug(v).value.flags.value;
    var r := GetFlag(DecodeBug(v).value, name);
    BugFlagsFromServer(v);
    if r.Some? {
      var i :| 0 <= i < |flags| && flags[i].name == name && r.value == flags[i].status;
      var item := v.fields["flags"].items[i];
      assert DecodeFlag(item) == Ok(flags[i]);
    }
  }
}
