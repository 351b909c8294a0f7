/**
 * The observable behaviour of the watcher: an ordered trace of log entries,
 * child-process launches and reported exceptions, with views that pick out
 * the event notices and the launched commands.
 */
module Trace {
  import opened Strings

  /** One observable effect, in the order it happens. */
  datatype Entry =
    | Info(msg: string)         // an informational log message
    | Launch(command: string)   // an attempt to start `command` as a child process
    | StackTrace                // a caught exception, reported and then ignored

  const CreatedPrefix: string := "New path created:"
  const ModifiedPrefix: string := "New path modified:"

  /** An entry that announces an accepted create or modify event. */
  predicate IsNotice(e: Entry)
  {
    e.Info? && (StartsWith(e.msg, CreatedPrefix) || StartsWith(e.msg, ModifiedPrefix))
  }

  /** The messages of the notices of a trace, in trace order. */
  function Notices(t: seq<Entry>): (ns: seq<string>)
    ensures |ns| <= |t|
  {
    if t == [] then []
    else (if IsNotice(t[0]) then [t[0].msg] else []) + Notices(t[1..])
  }

  /** The commands of the launches of a trace, in trace order. */
  function Commands(t: seq<Entry>): (cs: seq<string>)
    ensures |cs| <= |t|
  {
    if t == [] then []
    else (if t[0].Launch? then [t[0].command] else []) + Commands(t[1..])
  }

  /** Every notice message begins with 'N'. */
  lemma NoticeHead(e: Entry)
    requires IsNotice(e)
    ensures e.msg != [] && e.msg[0] == 'N'
  {
    if StartsWith(e.msg, CreatedPrefix) {
      StartsWithHead(e.msg, CreatedPrefix);
    } else {
      StartsWithHead(e.msg, ModifiedPrefix);
    }
  }

  /** An informational message that does not begin with 'N' is not a notice. */
  lemma NotNotice(msg: string)
    requires msg == [] || msg[0] != 'N'
    ensures !IsNotice(Info(msg))
  {
    if IsNotice(Info(msg)) {
      NoticeHead(Info(msg));
    }
  }

  lemma {:induction false} NoticesAppend(a: seq<Entry>, b: seq<Entry>)
    ensures Notices(a + b) == Notices(a) + Notices(b)
  {
    if a != [] {
      assert (a + b)[1..] == a[1..] + b;
      NoticesAppend(a[1..], b);
    } else {
      assert a + b == b;
    }
  }

  lemma {:induction false} CommandsAppend(a: seq<Entry>, b: seq<Entry>)
    ensures Commands(a + b) == Commands(a) + Commands(b)
  {
    if a != [] {
      assert (a + b)[1..] == a[1..] + b;
      CommandsAppend(a[1..], b);
    } else {
      assert a + b == b;
    }
  }

  /** A trace holding neither notice nor launch contributes to neither list. */
  lemma {:induction false} Quiet(t: seq<Entry>)
    requires forall i :: 0 <= i < |t| ==> !IsNotice(t[i]) && !t[i].Launch?
    ensures Notices(t) == [] && Commands(t) == []
  {
    if t != [] {
      assert forall i :: 0 <= i < |t[1..]| ==> t[1..][i] == t[i + 1];
      Quiet(t[1..]);
    }
  }

  /** `n` copies of `x`: the commands of a trace that launches `x` exactly `n` times. */
  function Copies(x: string, n: nat): (r: seq<string>)
    ensures |r| == n
  {
    if n == 0 then [] else Copies(x, n - 1) + [x]
  }

  lemma {:induction false} CopiesAppend(x: string, a: nat, b: nat)
    ensures Copies(x, a) + Copies(x, b) == Copies(x, a + b)
  {
    if b == 0 {
      assert Copies(x, a) + [] == Copies(x, a);
    } else {
      CopiesAppend(x, a, b - 1);
      assert Copies(x, a) + (Copies(x, b - 1) + [x]) == (Copies(x, a) + Copies(x, b - 1)) + [x];
    }
  }
}
