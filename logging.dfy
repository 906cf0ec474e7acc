/** Where the styleguard logger sends a record: warnings and above to stderr, debug and
    info to stdout, through a filter that passes only levels below a bound. */
module Logging {
  const Debug: int := 10
  const Info: int := 20
  const Warning: int := 30
  const Error: int := 40
  const Critical: int := 50

  datatype Stream = Stdout | Stderr

  /** `LessThanLevelFilter.filter`: a record passes iff its level is below `passLevel`. */
  predicate LessThanLevel(passLevel: int, levelNo: int)
  {
    levelNo < passLevel
  }

  /** A stream handler emits a record at or above its own level that all its filters pass. */
  predicate HandlerEmits(handlerLevel: int, filters: seq<int>, levelNo: int)
  {
    levelNo >= handlerLevel && forall k :: 0 <= k < |filters| ==> LessThanLevel(filters[k], levelNo)
  }

  /** The streams a record reaches: the logger's own level gates it, then the stderr handler
      (level WARNING, no filter) and the stdout handler (level DEBUG, filter below WARNING)
      each decide. */
  function Destinations(loggerLevel: int, levelNo: int): (d: set<Stream>)
    ensures Stderr in d <==> levelNo >= loggerLevel && levelNo >= Warning
    ensures Stdout in d <==> levelNo >= loggerLevel && Debug <= levelNo < Warning
  {
    if levelNo < loggerLevel then {}
    else
      assert [Warning][0] == Warning;
      (if HandlerEmits(Warning, [], levelNo) then {Stderr} else {})
      + (if HandlerEmits(Debug, [Warning], levelNo) then {Stdout} else {})
  }

  /** A record the logger lets through, at DEBUG or above, reaches exactly one stream, and
      that stream is stderr iff the record is a warning or worse. */
  lemma ExactlyOneStream(loggerLevel: int, levelNo: int)
    requires levelNo >= loggerLevel && levelNo >= Debug
    ensures |Destinations(loggerLevel, levelNo)| == 1
    ensures Destinations(loggerLevel, levelNo) == if levelNo >= Warning then {Stderr} else {Stdout}
  {
  }

  /** Below the logger's level nothing is emitted; so is a record below DEBUG. */
  lemma QuietRecords(loggerLevel: int, levelNo: int)
    requires levelNo < loggerLevel || levelNo < Debug
    ensures Destinations(loggerLevel, levelNo) == {}
  {
  }
}
