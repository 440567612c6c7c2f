// cvutils/_inner.py: the error levels, the fourcc/suffix table and the
// error-level dispatcher `report`.

module Inner {
  import opened Exceptions

  const FATAL_ERROR: int := 4
  const ERROR: int := 3
  const WARNING: int := 2
  const INFOMATION: int := 1
  const IGNORE: int := 0

  /** What one call of `report` does. */
  datatype Action =
    | Raise(exc: Exc)        // the call raises
    | Warn(text: string)     // warnings.warn(text)
    | Print(text: string)    // print(text)
    | Nothing

  /** The effective level: `err + err_level_adj` when an adjustment is given,
      otherwise `err + os.environ.get('ERROR_LEVEL_ADJ', default=0)`.
      An environment value is always a string, and `int + str` raises. */
  function EffectiveLevel(err: int, adj: Option<int>, env: Option<string>): (r: Result<int>)
    ensures adj.Some? ==> r == Ok(err + adj.value)
    ensures adj.None? && env.None? ==> r == Ok(err)
    ensures adj.None? && env.Some? ==> r == Err(TypeError)
  {
    match adj
    case Some(a) => Ok(err + a)
    case None =>
      match env
      case None => Ok(err)
      case Some(_) => Err(TypeError)
  }

  /** The dispatch on the effective level. The source compares with `is`,
      which for CPython's cached small integers is equality. */
  function Dispatch(level: int, msg: string): (a: Action)
  {
    if level == FATAL_ERROR then Raise(SystemError("[!!!]" + msg))
    else if level == ERROR then Raise(RuntimeError(msg))
    else if level == WARNING then Warn("[!]" + msg)
    else if level == INFOMATION then Print("[i]" + msg)
    else Nothing
  }

  /** report(err, msg, err_level_adj) with the environment variable
      ERROR_LEVEL_ADJ passed in as `env`. */
  function Report(err: int, msg: string, adj: Option<int>, env: Option<string>): (a: Action)
  {
    match EffectiveLevel(err, adj, env)
    case Ok(level) => Dispatch(level, msg)
    case Err(e) => Raise(e)
  }

  /** How severe an action is: 4 and 3 for the two raising levels, 2 for a
      warning, 1 for an informational print, 0 for nothing. */
  function Severity(a: Action): (s: int)
    ensures 0 <= s <= 4
  {
    match a
    case Raise(SystemError(_)) => 4
    case Raise(RuntimeError(_)) => 3
    case Raise(_) => 4
    case Warn(_) => 2
    case Print(_) => 1
    case Nothing => 0
  }

  /** The message a raising or printing action carries. */
  function Text(a: Action): string
  {
    match a
    case Raise(SystemError(m)) => m
    case Raise(RuntimeError(m)) => m
    case Raise(_) => ""
    case Warn(m) => m
    case Print(m) => m
    case Nothing => ""
  }

  /** Every level in 0..4 is dispatched to the action of that severity, with
      the message prefixed by the level's marker; any other level does nothing;
      only levels 3 and 4 raise. */
  lemma DispatchBySeverity(level: int, msg: string)
    ensures 0 <= level <= 4 ==> Severity(Dispatch(level, msg)) == level
    ensures !(0 <= level <= 4) ==> Dispatch(level, msg) == Nothing
    ensures Dispatch(level, msg).Raise? <==> level == 3 || level == 4
    ensures level == 4 ==> Text(Dispatch(level, msg)) == "[!!!]" + msg
    ensures level == 3 ==> Text(Dispatch(level, msg)) == msg
    ensures level == 2 ==> Text(Dispatch(level, msg)) == "[!]" + msg
    ensures level == 1 ==> Text(Dispatch(level, msg)) == "[i]" + msg
  {
  }

  /** With an explicit adjustment the outcome depends only on err + adj;
      without one, an unset environment leaves the level unchanged and a set
      one always fails with TypeError, whatever the level. */
  lemma ReportAdjustment(err: int, msg: string, adj: Option<int>, env: Option<string>)
    ensures adj.Some? ==> Report(err, msg, adj, env) == Report(err + adj.value, msg, Some(0), None)
    ensures adj.None? && env.None? ==> Report(err, msg, adj, env) == Dispatch(err, msg)
    ensures adj.None? && env.Some? ==> Report(err, msg, adj, env) == Raise(TypeError)
  {
  }

  /** The FOURCC_CODEC table: quality name to (fourcc, file suffix). */
  function FourccCodec(quality: string): (r: Option<(string, string)>)
    ensures r.Some? <==> quality in {"small", "normal", "lossless"}
    ensures r.Some? ==> |r.value.0| == 4 && r.value.1 in {".mp4", ".avi"}
  {
    if quality == "small" then Some(("mp4v", ".mp4"))
    else if quality == "normal" then Some(("DIVX", ".avi"))
    else if quality == "lossless" then Some(("HFYU", ".avi"))
    else None
  }
}
