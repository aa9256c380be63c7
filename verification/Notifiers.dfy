/** Routing of a notification to its channel's notifier. */
module Notifiers {
  import opened Domain

  datatype Notifier = LogNotifier | EmailNotifier | TelegramNotifier

  type Table = map<Channel, Notifier>

  /** The part of the configuration NewDispatcher looks at. */
  datatype Config = Config(mode: string, emailHost: string, telegramToken: string)

  datatype SendResult = Accepted | NoNotifier | InvalidNotification | TransportError

  /** Each notifier checks the notification before it talks to the outside; the log notifier never fails. */
  function SendBy(notifier: Notifier, n: Notification, transportOk: bool): SendResult {
    match notifier
    case LogNotifier => Accepted
    case EmailNotifier =>
      if n.channel != Email || n.email.None? then InvalidNotification
      else if transportOk then Accepted else TransportError
    case TelegramNotifier =>
      if n.channel != Telegram || n.telegram.None? then InvalidNotification
      else if transportOk then Accepted else TransportError
  }

  function Dispatch(notifiers: Table, n: Notification, transportOk: bool): SendResult {
    if n.channel in notifiers then SendBy(notifiers[n.channel], n, transportOk) else NoNotifier
  }

  /** Every channel a stored notification can have is mapped to a notifier that can serve it. */
  predicate Complete(notifiers: Table) {
    && Email in notifiers && notifiers[Email] in {LogNotifier, EmailNotifier}
    && Telegram in notifiers && notifiers[Telegram] in {LogNotifier, TelegramNotifier}
  }

  class Dispatcher {
    var notifiers: Table

    /** `botOk` is the outcome of opening the Telegram client; on failure no dispatcher is built. */
    constructor (cfg: Config, botOk: bool)
      ensures Complete(notifiers) && notifiers.Keys == {Email, Telegram}
      ensures notifiers[Email] == EmailNotifier <==> cfg.mode == "production" && cfg.emailHost != ""
      ensures notifiers[Telegram] == TelegramNotifier <==> cfg.mode == "production" && cfg.telegramToken != "" && botOk
    {
      var built := map[Email := LogNotifier, Telegram := LogNotifier];
      if cfg.mode == "production" {
        if cfg.emailHost != "" { built := built[Email := EmailNotifier]; }
        if cfg.telegramToken != "" && botOk { built := built[Telegram := TelegramNotifier]; }
      }
      notifiers := built;
    }

    method Send(n: Notification, transportOk: bool) returns (r: SendResult)
      ensures r == Dispatch(notifiers, n, transportOk)
    {
      if n.channel !in notifiers { return NoNotifier; }
      r := SendBy(notifiers[n.channel], n, transportOk);
    }
  }

  /** NewDispatcher: a bad bot token in production mode is an error, everything else yields a dispatcher. */
  method NewDispatcher(cfg: Config, botOk: bool) returns (d: Dispatcher?)
    ensures d == null <==> cfg.mode == "production" && cfg.telegramToken != "" && !botOk
    ensures d != null ==> fresh(d) && Complete(d.notifiers)
    ensures d != null ==>
      (d.notifiers[Telegram] == TelegramNotifier <==> cfg.mode == "production" && cfg.telegramToken != "")
    ensures d != null ==> (d.notifiers[Email] == EmailNotifier <==> cfg.mode == "production" && cfg.emailHost != "")
  {
    if cfg.mode == "production" && cfg.telegramToken != "" && !botOk { return null; }
    d := new Dispatcher(cfg, botOk);
  }

  /** A dispatcher serves a channel-consistent notification with no failure but transport; and it reports success
      exactly if the transport succeeded, or there is only the log to write to. */
  lemma OnlyTransportFails(notifiers: Table, n: Notification, transportOk: bool)
    requires Complete(notifiers) && WellFormed(n)
    ensures n.channel in notifiers
    ensures Dispatch(notifiers, n, transportOk) == Accepted <==> transportOk || notifiers[n.channel] == LogNotifier
    ensures Dispatch(notifiers, n, transportOk) == TransportError
      <==> !transportOk && notifiers[n.channel] != LogNotifier
  {
  }

  /** For any table and any notification: when there is no notifier, and when its guard refuses the notification. */
  lemma DispatchFails(notifiers: Table, n: Notification, transportOk: bool)
    ensures Dispatch(notifiers, n, transportOk) == NoNotifier <==> n.channel !in notifiers
    ensures Dispatch(notifiers, n, transportOk) == InvalidNotification <==>
      && n.channel in notifiers
      && (|| (notifiers[n.channel] == EmailNotifier && (n.channel != Email || n.email == None))
          || (notifiers[n.channel] == TelegramNotifier && (n.channel != Telegram || n.telegram == None)))
  {
  }
}
