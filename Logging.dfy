// Logger-name normalisation and the progress counter.

module Logging {
  import opened Json

  const RootLogger: string := "TTScraper"

  /** `get_logger`'s name: "TTScraper" for None, a TTScraper-prefixed name unchanged, else "TTScraper." + name. */
  function LoggerName(name: Option<string>): (r: string)
    ensures RootLogger <= r
    ensures name.None? ==> r == RootLogger
    ensures name.Some? && RootLogger <= name.value ==> r == name.value
    ensures name.Some? && !(RootLogger <= name.value) ==> r == RootLogger + "." + name.value
  {
    match name
    case None => RootLogger
    case Some(n) => if RootLogger <= n then n else RootLogger + "." + n
  }

  /** Normalising a normalised name changes nothing. */
  lemma LoggerNameIdempotent(name: Option<string>)
    ensures LoggerName(Some(LoggerName(name))) == LoggerName(name)
  {
  }

  /** Distinct names without the prefix give distinct loggers. */
  lemma LoggerNameInjective(a: string, b: string)
    requires !(RootLogger <= a) && !(RootLogger <= b)
    requires LoggerName(Some(a)) == LoggerName(Some(b))
    ensures a == b
  {
    var p := RootLogger + ".";
    assert a == LoggerName(Some(a))[|p|..];
    assert b == LoggerName(Some(b))[|p|..];
  }

  /** `ProgressIndicator`: the counters its `update` keeps. */
  class ProgressIndicator {
    var total: int
    var current: int
    var description: string

    /** `__init__`: `current` starts at 0. */
    constructor (total: int, description: string)
      ensures this.total == total && this.current == 0 && this.description == description
    {
      this.total := total;
      this.current := 0;
      this.description := description;
    }

    /** `update(increment)`: adds `increment` to `current`; nothing else changes. */
    method Update(increment: int)
      modifies this
      ensures current == old(current) + increment
      ensures total == old(total) && description == old(description)
    {
      current := current + increment;
    }
  }
}
