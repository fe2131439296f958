/** internal/health/kafka.go, clickhouse.go, redis.go: a client built by the first Check and released by Close. */
module Clients {
  import opened Prelude
  import opened Checker

  datatype Connection = Absent | Open | Closed

  /** once.Do has run; the client it built; the error it got instead. */
  datatype Lazy = Lazy(once: bool, connection: Connection, initErr: Option<Err>)

  const UNBUILT := Lazy(false, Absent, None)

  /** What once.Do leaves when building a client gives `build`: an error, or none and a client. */
  function Built(c: Lazy, build: Option<Err>): Lazy {
    if c.once then c
    else if build.Some? then Lazy(true, c.connection, build)
    else Lazy(true, Open, None)
  }

  function Released(c: Lazy): Lazy {
    if c.connection == Absent then c else c.(connection := Closed)
  }

  /** The driver is built at most once, whatever later attempts would have given. */
  lemma BuildsOnce(c: Lazy, first: Option<Err>, later: Option<Err>)
    ensures Built(Built(c, first), later) == Built(c, first)
    ensures Built(Released(Built(c, first)), later) == Released(Built(c, first))
  {}

  /** The first attempt decides: an open client, or an error and none. */
  lemma FirstBuildDecides(build: Option<Err>)
    ensures var c := Built(UNBUILT, build);
            && c.once && c.initErr == build && c.connection == (if build.None? then Open else Absent)
  {}

  /** Closing closes what is open, and leaves what was never built alone. */
  lemma ReleaseCloses(c: Lazy)
    ensures Released(c).once == c.once && Released(c).initErr == c.initErr
    ensures c.connection == Absent ==> Released(c).connection == Absent
    ensures c.connection != Absent ==> Released(c).connection == Closed
  {}

  class LazyChecker {
    const buildPrefix: string
    const callPrefix: string
    var once: bool
    var connection: Connection
    var initErr: Option<Err>

    function View(): Lazy
      reads this
    {
      Lazy(once, connection, initErr)
    }

    constructor (buildPrefix: string, callPrefix: string)
      ensures View() == UNBUILT && this.buildPrefix == buildPrefix && this.callPrefix == callPrefix
    {
      this.buildPrefix, this.callPrefix := buildPrefix, callPrefix;
      once, connection, initErr := false, Absent, None;
    }

    /** `build` is what constructing the driver would give now, `answer` what its request gives. */
    method Check(build: Option<Err>, answer: Option<Err>) returns (err: Option<Err>)
      requires buildPrefix in CHECK_PREFIXES && callPrefix in CHECK_PREFIXES
      modifies this
      ensures View() == Built(old(View()), build)
      ensures once && (old(once) ==> connection == old(connection) && initErr == old(initErr))
      ensures !old(once) && build.None? ==> connection == Open && initErr == None
      ensures !old(once) && build.Some? ==> connection == old(connection) && initErr == build
      ensures err.None? <==> initErr.None? && answer.None?
      ensures err.Some? ==> err == Some(if initErr.Some? then Wrap(buildPrefix, initErr.value)
                                        else Wrap(callPrefix, answer.value))
      ensures Classify(err) == Classify(if initErr.Some? then initErr else answer)
    {
      if !once {
        once := true;
        if build.Some? {
          initErr := build;
        } else {
          connection, initErr := Open, None;
        }
      }
      if initErr.Some? {
        ClassifySeesThroughWrapping([buildPrefix], initErr.value);
        assert WrapAll([buildPrefix], initErr.value) == Wrap(buildPrefix, initErr.value);
        return Some(Wrap(buildPrefix, initErr.value));
      }
      if answer.Some? {
        ClassifySeesThroughWrapping([callPrefix], answer.value);
        assert WrapAll([callPrefix], answer.value) == Wrap(callPrefix, answer.value);
        return Some(Wrap(callPrefix, answer.value));
      }
      return None;
    }

    method Close()
      modifies this
      ensures View() == Released(old(View()))
      ensures connection == if old(connection) == Absent then Absent else Closed
      ensures once == old(once) && initErr == old(initErr)
    {
      if connection != Absent {
        connection := Closed;
      }
    }
  }
}
