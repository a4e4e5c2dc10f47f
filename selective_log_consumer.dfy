/**
 * The selective log consumer: routes each line a container writes to at
 * most one log call, chosen by the consumer's verbosity, the stream the
 * line came from and, in the middle verbosity, by whether the line looks
 * like a log record of the application inside the container.
 */
module SelectiveLogging {
  import opened JavaLang

  /** How much of the container's output is forwarded. */
  datatype LoggingLevel = ALL | SOME | NONE

  /** The stream an output frame came from; `END` marks the end of output. */
  datatype OutputType = STDOUT | STDERR | END

  /** One frame of container output, with its text already decoded and stripped of its line ending. */
  datatype OutputFrame = OutputFrame(outputType: OutputType, line: string)

  /** Severity of a log call. */
  datatype Severity = Info | Warn | Debug

  /** One call on the logger: its severity and the message. */
  datatype Emission = Emission(severity: Severity, text: string)

  /** The substrings that mark a stderr line as an embedded application log record. */
  const EmbeddedLogMarkers: seq<string> := [": DEBUG:  ", ": NOTICE:  ", ": INFO:  ", " LOG: "]

  /** The line contains one of the four markers. */
  predicate IsEmbeddedLogLine(s: string) {
    Contains(s, ": DEBUG:  ") || Contains(s, ": NOTICE:  ") || Contains(s, ": INFO:  ") || Contains(s, " LOG: ")
  }

  /** The log call, if any, that `accept` makes for a frame of type `t` and text `s` at verbosity `level`. */
  function Route(level: LoggingLevel, t: OutputType, s: string): (e: Option<Emission>)
    ensures e.Some? <==> level != NONE && t != END
    ensures e.Some? ==> e.value.text == s
  {
    match level
    case ALL =>
      (match t
       case STDOUT => Some(Emission(Info, s))
       case STDERR => Some(Emission(Warn, s))
       case END => None)
    case SOME =>
      var ignore := IsEmbeddedLogLine(s);
      (match t
       case STDOUT => Some(Emission(Info, s))
       case STDERR => if ignore then Some(Emission(Debug, s)) else Some(Emission(Warn, s))
       case END => None)
    case NONE => None
  }

  /** At NONE nothing is logged, whatever the frame. */
  lemma RouteNoneSilent(t: OutputType, s: string)
    ensures Route(NONE, t, s) == None
  {
  }

  /** At ALL, stdout goes to info and stderr to warn, whatever the text contains. */
  lemma RouteAllByStream(s: string)
    ensures Route(ALL, STDOUT, s) == Some(Emission(Info, s))
    ensures Route(ALL, STDERR, s) == Some(Emission(Warn, s))
  {
  }

  /**
   * At SOME, stdout always goes to info; stderr goes to debug exactly when
   * one of the markers occurs in it and to warn otherwise.
   */
  lemma {:induction false} RouteSomeDemotesEmbeddedLogs(s: string)
    ensures Route(SOME, STDOUT, s) == Some(Emission(Info, s))
    ensures Route(SOME, STDERR, s) == Some(Emission(Debug, s)) <==>
      exists k, i: nat :: 0 <= k < |EmbeddedLogMarkers| && OccursAt(s, EmbeddedLogMarkers[k], i)
    ensures Route(SOME, STDERR, s) == Some(Emission(Warn, s)) <==>
      !exists k, i: nat :: 0 <= k < |EmbeddedLogMarkers| && OccursAt(s, EmbeddedLogMarkers[k], i)
  {
    var m := EmbeddedLogMarkers;
    assert m[0] == ": DEBUG:  " && m[1] == ": NOTICE:  " && m[2] == ": INFO:  " && m[3] == " LOG: ";
    forall k | 0 <= k < |m| {
      ContainsIffOccurs(s, m[k]);
    }
  }

  /** A line carrying the generic ` LOG: ` marker is demoted at SOME. */
  lemma RouteSomeExample()
    ensures Route(SOME, STDERR, "2023-01-01 UTC [1] LOG: ready") == Some(Emission(Debug, "2023-01-01 UTC [1] LOG: ready"))
  {
    assert OccursAt("2023-01-01 UTC [1] LOG: ready", " LOG: ", 18);
    ContainsIffOccurs("2023-01-01 UTC [1] LOG: ready", " LOG: ");
  }

  /** A consumer of container output, bound to one container name. */
  class SelectiveLogConsumer {
    const name: string
    var level: LoggingLevel

    /** A consumer at the given level. */
    constructor (name: string, level: LoggingLevel)
      ensures this.name == name && this.level == level
    {
      this.name := name;
      this.level := level;
    }

    /** A consumer at the default level, SOME. */
    constructor Named(name: string)
      ensures this.name == name && level == SOME
    {
      this.name := name;
      this.level := SOME;
    }

    function GetLoggingLevel(): (l: LoggingLevel)
      reads this
      ensures l == level
    {
      level
    }

    method SetLoggingLevel(level: LoggingLevel)
      modifies this`level
      ensures GetLoggingLevel() == level
    {
      this.level := level;
    }

    /** Consumes one frame: returns the log call made for it, leaving the level as it was. */
    method Accept(frame: OutputFrame) returns (e: Option<Emission>)
      ensures e == Route(level, frame.outputType, frame.line)
    {
      var s := frame.line;
      match level {
        case ALL =>
          match frame.outputType {
            case STDOUT => e := Some(Emission(Info, s));
            case STDERR => e := Some(Emission(Warn, s));
            case END => e := None;
          }
        case SOME =>
          var ignore := Contains(s, ": DEBUG:  ") || Contains(s, ": NOTICE:  ")
                     || Contains(s, ": INFO:  ") || Contains(s, " LOG: ");
          match frame.outputType {
            case STDOUT => e := Some(Emission(Info, frame.line));
            case STDERR =>
              if ignore {
                e := Some(Emission(Debug, s));
              } else {
                e := Some(Emission(Warn, s));
              }
            case END => e := None;
          }
        case NONE =>
          e := None;
      }
    }
  }
}
