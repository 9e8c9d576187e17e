/**
 * The invite-notice filter of `event_monitoring`: which raw platform
 * messages become a ledger entry.
 */
module InviteEvents {
  import opened Wrappers
  import opened PyText
  import opened Invitations

  /** A value found in the raw message dict. */
  datatype Value =
    | Str(s: string)
    | Int(i: int)
    | NoneValue          // Python's None, also what `dict.get` gives for a missing key
    | Other(text: string) // any other object, with the text `str()` gives for it

  /** The event's `raw_message` attribute: either a dict or something else. */
  datatype RawMessage = NotDict | Dict(fields: map<string, Value>)

  const PostType := "post_type"
  const NoticeType := "notice_type"
  const SubType := "sub_type"
  const OperatorId := "operator_id"
  const UserId := "user_id"

  /** `raw.get(key)`. */
  function Get(fields: map<string, Value>, key: string): (v: Value)
    ensures key !in fields ==> v == NoneValue
  {
    if key in fields then fields[key] else NoneValue
  }

  /** Python's `str()` of a value. */
  function PyStr(v: Value): (r: string)
    ensures v.Int? ==> r == IntText(v.i)
    ensures v.Str? ==> r == v.s
  {
    match v
    case Str(s) => s
    case Int(i) => IntText(i)
    case NoneValue => "None"
    case Other(text) => text
  }

  /**
   * Integer ids become ledger keys that identify them: two integer ids give
   * the same key exactly when they are equal, and the key reads back as the id.
   */
  lemma PyStrIntIds(a: Value, b: Value)
    requires a.Int? && b.Int?
    ensures PyStr(a) == PyStr(b) <==> a.i == b.i
    ensures AllDigits(PyStr(a)[1..]) && ParseInt(PyStr(a)) == a.i
  {
    IntTextInjective(a.i, b.i);
    IntTextRoundTrip(a.i);
  }

  /** The notice part of the filter: a dict whose post and notice types mark a member joining. */
  predicate IsGroupIncrease(raw: RawMessage) {
    raw.Dict? && Get(raw.fields, PostType) == Str("notice") && Get(raw.fields, NoticeType) == Str("group_increase")
  }

  /**
   * The invite that `event_monitoring` records for a raw message seen in group
   * `gid` while `enabled` is the invitation tracking list, if any.
   */
  function InviteOf(raw: RawMessage, gid: string, enabled: seq<string>): (r: Option<Invite>)
    ensures r.Some? <==>
              && raw.Dict?
              && Get(raw.fields, PostType) == Str("notice")
              && Get(raw.fields, NoticeType) == Str("group_increase")
              && gid in enabled
              && Get(raw.fields, SubType) == Str("invite")
    ensures r.Some? ==> r.value.group == gid
    ensures r.Some? ==> r.value.inviter == PyStr(Get(raw.fields, OperatorId))
    ensures r.Some? ==> r.value.invitee == PyStr(Get(raw.fields, UserId))
  {
    if !IsGroupIncrease(raw) then None
    else if gid !in enabled then None
    else if Get(raw.fields, SubType) == Str("invite") then
      Some(Invite(gid, PyStr(Get(raw.fields, OperatorId)), PyStr(Get(raw.fields, UserId))))
    else None
  }
}
