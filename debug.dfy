/**
 * Signal monitoring: a bounded FIFO per monitored signal that keeps the most
 * recent `bufferSize` values (a `deque` with `maxlen`), and the name-keyed
 * dispatch over the five monitored signals with zeros as the fallback.
 */
module Debug {
  import opened Base

  /** The length of the zero buffer returned when there is nothing to show. */
  const EMPTY_LENGTH: nat := 1024

  /** The default capacity of a monitor. */
  const DEFAULT_BUFFER_SIZE: nat := 1024

  /** The signals the debug system monitors. */
  const MONITOR_NAMES: set<string> := {"audio_out", "pre_filter", "post_filter", "lfo", "adsr"}

  /** The last `n` elements of `s` (all of `s` when it is shorter). */
  function Newest<T>(s: seq<T>, n: nat): (r: seq<T>)
    ensures |r| <= n && |r| <= |s|
    ensures |s| <= n ==> r == s
    ensures |s| > n ==> |r| == n
    ensures forall i :: 0 <= i < |r| ==> r[i] == s[|s| - |r| + i]
  {
    if |s| <= n then s else s[|s| - n..]
  }

  /** One `append` on a full or non-full bounded deque. */
  function Push<T>(buffer: seq<T>, v: T, maxlen: nat): (r: seq<T>)
    requires |buffer| <= maxlen
  {
    if |buffer| < maxlen then buffer + [v]
    else if maxlen == 0 then []
    else buffer[1..] + [v]
  }

  /** Appending to a deque holding the newest values keeps holding the newest values. */
  lemma NewestPush<T>(s: seq<T>, v: T, n: nat)
    ensures Push(Newest(s, n), v, n) == Newest(s + [v], n)
  {
    var b := Newest(s, n);
    if |b| == n && n > 0 {
      assert |s| >= n;
      assert b[1..] + [v] == (s + [v])[|s| + 1 - n..];
    }
  }

  /** Trimming between two extends changes nothing: two updates act as one. */
  lemma {:induction false} NewestConcat<T>(a: seq<T>, b: seq<T>, n: nat)
    ensures Newest(Newest(a, n) + b, n) == Newest(a + b, n)
  {
    if b == [] {
      assert a + b == a;
      assert Newest(a, n) + b == Newest(a, n);
    } else {
      var init := b[..|b| - 1];
      var v := b[|b| - 1];
      assert b == init + [v];
      NewestConcat(a, init, n);
      assert Newest(a, n) + b == (Newest(a, n) + init) + [v];
      assert a + b == (a + init) + [v];
      NewestPush(Newest(a, n) + init, v, n);
      NewestPush(a + init, v, n);
    }
  }

  class SignalMonitor {
    const bufferSize: nat
    var buffer: seq<real>

    ghost predicate Valid()
      reads this
    {
      |buffer| <= bufferSize
    }

    constructor (bufferSize: nat := DEFAULT_BUFFER_SIZE)
      ensures Valid() && this.bufferSize == bufferSize && buffer == []
    {
      this.bufferSize := bufferSize;
      buffer := [];
    }

    /** `buffer.extend(values)`: appends in order, dropping the oldest. */
    method Update(values: seq<real>)
      requires Valid()
      modifies this
      ensures Valid()
      ensures buffer == Newest(old(buffer) + values, bufferSize)
    {
      ghost var start := buffer;
      var i := 0;
      while i < |values|
        invariant 0 <= i <= |values|
        invariant buffer == Newest(start + values[..i], bufferSize)
      {
        ghost var seen := start + values[..i];
        assert start + values[..i + 1] == seen + [values[i]];
        NewestPush(seen, values[i], bufferSize);
        buffer := Push(buffer, values[i], bufferSize);
        i := i + 1;
      }
      assert values[..i] == values;
    }

    /** `get_data`: the contents oldest first, or 1024 zeros when empty. */
    function GetData(): (r: seq<real>)
      reads this
      ensures |buffer| > 0 ==> r == buffer
      ensures |buffer| == 0 ==> r == Zeros(EMPTY_LENGTH)
      ensures |r| > 0
    {
      if |buffer| > 0 then buffer else Zeros(EMPTY_LENGTH)
    }
  }

  /** A five-entry map display with pairwise distinct values maps distinct keys to distinct values. */
  lemma FiveDistinct<K, V>(k1: K, v1: V, k2: K, v2: V, k3: K, v3: V, k4: K, v4: V, k5: K, v5: V)
    requires v1 != v2 && v1 != v3 && v1 != v4 && v1 != v5 && v2 != v3 && v2 != v4 && v2 != v5
    requires v3 != v4 && v3 != v5 && v4 != v5
    ensures var m := map[k1 := v1, k2 := v2, k3 := v3, k4 := v4, k5 := v5];
      forall a, b :: a in m && b in m && a != b ==> m[a] != m[b]
  {
  }

  class DebugSystem {
    const signalMonitors: map<string, SignalMonitor>

    ghost predicate Valid()
      reads this, signalMonitors.Values
    {
      && signalMonitors.Keys == MONITOR_NAMES
      && (forall a, b :: a in signalMonitors && b in signalMonitors && a != b ==> signalMonitors[a] != signalMonitors[b])
      && (forall n :: n in signalMonitors ==> signalMonitors[n].Valid() && signalMonitors[n].bufferSize == DEFAULT_BUFFER_SIZE)
    }

    constructor ()
      ensures Valid()
      ensures forall n :: n in signalMonitors ==> fresh(signalMonitors[n]) && signalMonitors[n].buffer == []
    {
      var audioOut := new SignalMonitor();
      var preFilter := new SignalMonitor();
      var postFilter := new SignalMonitor();
      var lfo := new SignalMonitor();
      var adsr := new SignalMonitor();
      signalMonitors := map["audio_out" := audioOut, "pre_filter" := preFilter, "post_filter" := postFilter,
                            "lfo" := lfo, "adsr" := adsr];
      FiveDistinct("audio_out", audioOut, "pre_filter", preFilter, "post_filter", postFilter, "lfo", lfo, "adsr", adsr);
    }

    /** `monitor_signal`: updates the named monitor; other monitors are untouched. */
    method MonitorSignal(name: string, values: seq<real>)
      requires Valid()
      modifies if name in signalMonitors then {signalMonitors[name]} else {}
      ensures Valid()
      ensures name in signalMonitors ==>
        signalMonitors[name].buffer == Newest(old(signalMonitors[name].buffer) + values, DEFAULT_BUFFER_SIZE)
      ensures forall n :: n in signalMonitors && n != name ==> signalMonitors[n].buffer == old(signalMonitors[n].buffer)
    {
      if name in signalMonitors {
        signalMonitors[name].Update(values);
      }
    }

    /** `get_signal_data`: the named monitor's data, or 1024 zeros for an unknown name. */
    function GetSignalData(name: string): (r: seq<real>)
      reads this, signalMonitors.Values
      ensures name !in signalMonitors ==> r == Zeros(EMPTY_LENGTH)
      ensures name in signalMonitors ==> r == signalMonitors[name].GetData()
    {
      if name in signalMonitors then signalMonitors[name].GetData() else Zeros(EMPTY_LENGTH)
    }
  }
}
