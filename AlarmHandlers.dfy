/** The two alarm handlers of the power detector: an e-mail sender and a
    buzzer.  Only their decision logic is modelled; the SMTP session and the
    tone generator are external. */
module AlarmHandlers {
  import opened Logging

  /** The kinds of handler the monitor fans notifications out to.  Their
      configuration (credentials, destination, pin, duration) only feeds I/O. */
  datatype Handler = EMail | Buzzer

  /** What one handler does with one notification. */
  datatype Effect =
    | Mail(subject: string)   // an e-mail is sent with this subject line
    | Siren                   // the buzzer plays its two-tone pattern
    | Silent                  // the buzzer ignores the notification

  const MESSAGE_SUBJECT: string := "Power detector event"

  /** The severity-to-name table the e-mail handler builds when it is created. */
  function LoggingStrings(): map<int, string>
  {
    map[NOTSET := "NOTSET", DEBUG := "DEBUG", INFO := "INFO",
        WARNING := "WARNING", ERROR := "ERROR", CRITICAL := "CRITICAL"]
  }

  /** The name of a severity used in the e-mail subject; the NOTSET entry is
      the fallback for a number the table does not hold. */
  function GetLoggingString(severity: int): (name: string)
    ensures severity == NOTSET ==> name == "NOTSET"
    ensures severity == DEBUG ==> name == "DEBUG"
    ensures severity == INFO ==> name == "INFO"
    ensures severity == WARNING ==> name == "WARNING"
    ensures severity == ERROR ==> name == "ERROR"
    ensures severity == CRITICAL ==> name == "CRITICAL"
    ensures !IsNamedLevel(severity) ==> name == "NOTSET"
  {
    var strings := LoggingStrings();
    if severity in strings then strings[severity] else strings[NOTSET]
  }

  /** The name tells the named levels apart, and "NOTSET" is what every
      other number is reported as. */
  lemma LoggingStringIdentifiesLevel(a: int, b: int)
    requires IsNamedLevel(a) && IsNamedLevel(b)
    ensures GetLoggingString(a) == GetLoggingString(b) <==> a == b
    ensures GetLoggingString(a) == "NOTSET" <==> a == NOTSET
  {
  }

  /** The buzzer's gate: it reacts to ERROR and above only. */
  predicate BuzzerSounds(severity: int)
  {
    severity >= ERROR
  }

  /** The gate lets CRITICAL alarms through and keeps INFO heartbeats out,
      and a more severe notification never sounds less. */
  lemma BuzzerGate(s: int, t: int)
    ensures BuzzerSounds(CRITICAL) && BuzzerSounds(ERROR)
    ensures !BuzzerSounds(INFO) && !BuzzerSounds(WARNING) && !BuzzerSounds(DEBUG) && !BuzzerSounds(NOTSET)
    ensures s <= t && BuzzerSounds(s) ==> BuzzerSounds(t)
  {
  }

  /** What `trigger(msg, severity)` of handler `h` does: the e-mail handler
      always mails, with the severity's name in the subject; the buzzer
      sounds exactly when its gate is open. */
  function Trigger(h: Handler, severity: int): (e: Effect)
    ensures e.Mail? <==> h == EMail
    ensures e.Mail? ==> e.subject == MESSAGE_SUBJECT + " - " + GetLoggingString(severity)
    ensures e == Siren <==> h == Buzzer && severity >= ERROR
    ensures e == Silent <==> h == Buzzer && severity < ERROR
  {
    match h
    case EMail => Mail(MESSAGE_SUBJECT + " - " + GetLoggingString(severity))
    case Buzzer => if BuzzerSounds(severity) then Siren else Silent
  }
}
