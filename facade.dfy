/** The `Logger` facade: configuration resolved once in the constructor, six
    severity methods that format their arguments and write one record to the
    sink, and the webhook notification that only `error` can trigger. The
    sink is an append-only log of records and the notifier an append-only
    log of requested posts; both are ghost state of the logger. */
module Facade {
  import opened Values
  import opened Text
  import opened Formatting
  import opened ErrorOrder
  import opened Webhook

  /** The sink methods the facade writes through. */
  datatype Level = Trace | Debug | Info | Warn | Error | Fatal

  /** One call of a sink method: `base.<level>(payload)` or
      `base.error(payload, message)`. */
  datatype Record = Record(level: Level, payload: Payload, message: Option<string>)

  /** A webhook post started by `error`. */
  datatype Notice = Notice(url: string, body: Body)

  /** The options the facade reads itself; the rest go to the sink untouched. */
  datatype Options = Options(content: Option<string>, webhookURL: Option<string>, logLevel: Option<string>)

  /** The explicit option, else the `LOG_LEVEL` environment value, else
      "info", each skipped when absent or empty; so never empty. */
  function ResolveLevel(option: Option<string>, env: Option<string>): (r: string)
    ensures r != ""
    ensures Truthy(option) ==> r == option.value
    ensures !Truthy(option) && Truthy(env) ==> r == env.value
    ensures !Truthy(option) && !Truthy(env) ==> r == "info"
  {
    if Truthy(option) then option.value
    else if Truthy(env) then env.value
    else "info"
  }

  /** What `info`, `warn`, `debug`, `trace` and `fatal` write: only the first
      component of the formatted arguments. */
  function LevelRecord(rt: Runtime, level: Level, args: seq<Arg>): (r: Record)
    ensures r.level == level && r.message == None
    ensures r.payload.Carrier? <==> |args| > 0 && args[0].Err?
    ensures r.payload == if |args| > 0 && args[0].Err? then Carrier(args[0])
                         else Msg(Join(Renderings(rt, args)))
  {
    Record(level, FormatLogArgs(rt, args).Head(), None)
  }

  /** What `Logger.error` writes: both components, at error level. */
  function ErrorRecord(rt: Runtime, args: seq<Arg>): (r: Record)
    ensures r.level == Error
    ensures r.payload.Carrier? <==> r.message.Some?
    ensures r.payload == if |args| > 0 && args[0].Err? then Carrier(args[0])
                         else Msg(Join(Renderings(rt, args)))
    ensures r.message == if |args| > 0 && args[0].Err? then Some(Join(Renderings(rt, args[1..])))
                         else None
  {
    var f := FormatLogArgs(rt, args);
    Record(Error, f.Head(), f.Tail())
  }

  /** The posts `Logger.error` starts: one, exactly when a webhook URL is set
      and not empty and the payload is the `{err}` carrier. */
  function Notices(rt: Runtime, webhookURL: Option<string>, content: Option<string>, args: seq<Arg>)
    : (r: seq<Notice>)
    ensures |r| <= 1
    ensures r != [] <==> Truthy(webhookURL) && ErrorRecord(rt, args).payload.Carrier?
    ensures r != [] ==> |args| > 0 && args[0].Err?
                        && r[0] == Notice(webhookURL.value, DiscordBody(args[0], content))
  {
    var f := FormatLogArgs(rt, args);
    if Truthy(webhookURL) && f.Structured? then [Notice(webhookURL.value, DiscordBody(f.err, content))]
    else []
  }

  /** The other five levels forward a leading Error as the carrier and drop
      every later argument. */
  lemma LevelRecordDropsTrailingArgs(rt: Runtime, level: Level, args: seq<Arg>)
    requires |args| > 0 && args[0].Err?
    ensures LevelRecord(rt, level, args) == Record(level, Carrier(args[0]), None)
    ensures LevelRecord(rt, level, args) == LevelRecord(rt, level, args[..1])
  {
  }

  /** A leading Error's message is kept by `error` and lost by the other
      levels: the two records differ exactly in their message. */
  lemma ErrorKeepsWhatLevelsDrop(rt: Runtime, level: Level, args: seq<Arg>)
    ensures ErrorRecord(rt, args).payload == LevelRecord(rt, level, args).payload
    ensures ErrorRecord(rt, args).message.Some? <==> |args| > 0 && args[0].Err?
  {
  }

  /** Through the `error` override, a post is started exactly when a webhook
      URL is set and either the first argument is an Error, or the first
      argument is a string followed by at least one Error. */
  lemma OverrideNotifiesIff(rt: Runtime, webhookURL: Option<string>, content: Option<string>, args: seq<Arg>)
    ensures Notices(rt, webhookURL, content, ReorderedArgs(args)) != []
        <==> Truthy(webhookURL)
             && ((|args| > 0 && args[0].Err?) || (Reorders(args) && ErrorsOf(args[1..]) != []))
  {
    if Reorders(args) {
      if ErrorsOf(args[1..]) != [] {
        CarrierIsLastError(rt, args);
      } else {
        ReorderedShape(args);
      }
    }
  }

  /** `error("ctx", e)` writes `{err: e}` with the message "ctx", and, with a
      webhook URL set, posts the body built from `e`. */
  lemma ContextErrorRecord(rt: Runtime, webhookURL: Option<string>, content: Option<string>,
                           context: string, e: Arg)
    requires e.Err?
    ensures ErrorRecord(rt, ReorderedArgs([Str(context), e])) == Record(Error, Carrier(e), Some(context))
    ensures Notices(rt, webhookURL, content, ReorderedArgs([Str(context), e]))
         == if Truthy(webhookURL) then [Notice(webhookURL.value, DiscordBody(e, content))] else []
  {
    ContextThenError(rt, context, e);
  }

  class Logger {
    /** JSON serialisation and number formatting of the host. */
    const rt: Runtime
    const content: Option<string>
    const webhookURL: Option<string>
    var level: string
    /** Every record written to the sink, oldest first. */
    ghost var log: seq<Record>
    /** Every webhook post started, oldest first. */
    ghost var notices: seq<Notice>

    /** `envLogLevel` is `process.env.LOG_LEVEL`. */
    constructor (rt: Runtime, options: Options, envLogLevel: Option<string>)
      ensures this.rt == rt
      ensures content == options.content && webhookURL == options.webhookURL
      ensures level == ResolveLevel(options.logLevel, envLogLevel)
      ensures log == [] && notices == []
    {
      this.rt := rt;
      this.content := options.content;
      this.webhookURL := options.webhookURL;
      level := ResolveLevel(options.logLevel, envLogLevel);
      log := [];
      notices := [];
    }

    /** `Logger.error` as the class declares it, before `WrapLogger`. */
    method BaseError(args: seq<Arg>)
      modifies this`log, this`notices
      ensures log == old(log) + [ErrorRecord(rt, args)]
      ensures notices == old(notices) + Notices(rt, webhookURL, content, args)
    {
      var f := FormatLogArgs(rt, args);
      log := log + [Record(Level.Error, f.Head(), f.Tail())];
      if Truthy(webhookURL) && f.Structured? {
        notices := notices + [Notice(webhookURL.value, DiscordBody(f.err, content))];
      }
    }

    /** The `error` that callers reach: the `WrapLogger` override reorders a
        fresh copy of the arguments (the rest parameter), then calls
        `Logger.error`. */
    method Error(args: seq<Arg>)
      modifies this`log, this`notices
      ensures log == old(log) + [ErrorRecord(rt, ReorderedArgs(args))]
      ensures notices == old(notices) + Notices(rt, webhookURL, content, ReorderedArgs(args))
    {
      var a := new Arg[|args|](i requires 0 <= i < |args| => args[i]);
      assert a[..] == args;
      ReorderErrorArgs(a);
      BaseError(a[..]);
    }

    method Info(args: seq<Arg>)
      modifies this`log
      ensures log == old(log) + [LevelRecord(rt, Level.Info, args)]
    {
      log := log + [Record(Level.Info, FormatLogArgs(rt, args).Head(), None)];
    }

    method Warn(args: seq<Arg>)
      modifies this`log
      ensures log == old(log) + [LevelRecord(rt, Level.Warn, args)]
    {
      log := log + [Record(Level.Warn, FormatLogArgs(rt, args).Head(), None)];
    }

    method Debug(args: seq<Arg>)
      modifies this`log
      ensures log == old(log) + [LevelRecord(rt, Level.Debug, args)]
    {
      log := log + [Record(Level.Debug, FormatLogArgs(rt, args).Head(), None)];
    }

    method Trace(args: seq<Arg>)
      modifies this`log
      ensures log == old(log) + [LevelRecord(rt, Level.Trace, args)]
    {
      log := log + [Record(Level.Trace, FormatLogArgs(rt, args).Head(), None)];
    }

    method Fatal(args: seq<Arg>)
      modifies this`log
      ensures log == old(log) + [LevelRecord(rt, Level.Fatal, args)]
    {
      log := log + [Record(Level.Fatal, FormatLogArgs(rt, args).Head(), None)];
    }
  }

  /** A caller's view: logging the same arguments twice at a level appends
      two equal records and starts no post; `error("ctx", e)` with a webhook
      URL set appends `{err: e}` with "ctx" and starts one post. */
  method ContextErrorClient(rt: Runtime, url: string, e: Arg)
    requires url != "" && e.Err?
  {
    var logger := new Logger(rt, Options(None, Some(url), None), None);
    assert logger.level == "info";
    logger.Warn([Str("retrying"), e]);
    logger.Warn([Str("retrying"), e]);
    assert logger.log[0] == logger.log[1];
    assert logger.notices == [];
    logger.Error([Str("ctx"), e]);
    ContextErrorRecord(rt, Some(url), None, "ctx", e);
    assert logger.log[2] == Record(Error, Carrier(e), Some("ctx"));
    assert |logger.notices| == 1 && logger.notices[0].url == url;
  }
}
