/** The overloads of `track`: `track(trackingId, props)`, `track(props)` and
    `track()`. Both trackers resolve their arguments the same way; they
    differ only in their props and in the default event type. */
module Args {
  import opened Base

  /** One argument as `typeof` sees it. `NullArg` is `null`, whose `typeof`
      is `'object'` too; `OtherArg` is any other value (a number, a
      boolean), with its truthiness. */
  datatype Arg<P> = StringArg(s: string) | ObjectArg(props: P) | NullArg | Absent | OtherArg(truthy: bool)

  function ArgAt<P>(args: seq<Arg<P>>, i: nat): Arg<P> {
    if i < |args| then args[i] else Absent
  }

  predicate IsObject<P>(a: Arg<P>) {
    a.ObjectArg? || a.NullArg?
  }

  /** `typeof args[0] === 'string' ? args[0] : globalId`. */
  function TrackingId<P>(args: seq<Arg<P>>, globalId: Option<string>): (r: Option<string>)
    ensures ArgAt(args, 0).StringArg? ==> r == Some(ArgAt(args, 0).s)
    ensures !ArgAt(args, 0).StringArg? ==> r == globalId
  {
    match ArgAt(args, 0)
    case StringArg(s) => Some(s)
    case _ => globalId
  }

  /** The props object spread into the defaults:
      `typeof args[0] === 'object' ? args[0] : args[1] || {}`. `None` is a
      value with no props of its own (`null`, `{}`, a primitive). */
  function Props<P>(args: seq<Arg<P>>): (r: Option<P>)
    ensures IsObject(ArgAt(args, 0)) ==> (r.Some? <==> ArgAt(args, 0).ObjectArg?)
    ensures ArgAt(args, 0).ObjectArg? ==> r == Some(ArgAt(args, 0).props)
    ensures !IsObject(ArgAt(args, 0)) ==> (r.Some? <==> ArgAt(args, 1).ObjectArg?)
    ensures !IsObject(ArgAt(args, 0)) && ArgAt(args, 1).ObjectArg? ==> r == Some(ArgAt(args, 1).props)
  {
    var first := ArgAt(args, 0);
    if IsObject(first) then
      (if first.ObjectArg? then Some(first.props) else None)
    else
      match ArgAt(args, 1)
      case ObjectArg(p) => Some(p)
      case _ => None
  }

  /** `getArguments(args)`: the tracking id and the props, not yet merged
      with the defaults. */
  function GetArguments<P>(args: seq<Arg<P>>, globalId: Option<string>): (r: (Option<string>, Option<P>))
    ensures r.0 == if ArgAt(args, 0).StringArg? then Some(ArgAt(args, 0).s) else globalId
    ensures ArgAt(args, 0).ObjectArg? ==> r == (globalId, Some(ArgAt(args, 0).props))
    ensures ArgAt(args, 0).NullArg? ==> r == (globalId, None)
    ensures ArgAt(args, 0).StringArg? ==> r.1 == if ArgAt(args, 1).ObjectArg? then Some(ArgAt(args, 1).props) else None
  {
    (TrackingId(args, globalId), Props(args))
  }

  /** The three overloads: an id and props, props alone (the configured id),
      nothing (the configured id and the defaults). */
  lemma Overloads<P>(id: string, props: P, globalId: Option<string>)
    ensures GetArguments([StringArg(id), ObjectArg(props)], globalId) == (Some(id), Some(props))
    ensures GetArguments([ObjectArg(props)], globalId) == (globalId, Some(props))
    ensures GetArguments<P>([], globalId) == (globalId, None)
    ensures GetArguments([Absent, ObjectArg(props)], globalId) == (globalId, Some(props))
  {
  }

  /** A `null` first argument counts as the props object, so the props in
      the second position are ignored and the defaults apply. */
  lemma NullFirstArgumentDropsProps<P>(props: P, globalId: Option<string>)
    ensures GetArguments([NullArg, ObjectArg(props)], globalId) == (globalId, None)
  {
  }
}
