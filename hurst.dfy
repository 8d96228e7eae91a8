/** The `sc.hurst` object: a bounded FIFO of samples with its configuration
    flags, the messages that change it, and the read-outs it emits. */
module Hurst {
  import opened Window
  import Schedule
  import Analysis

  datatype Option<T> = None | Some(value: T)

  /** An incoming message argument: an integer, a float or anything else. */
  datatype Atom = Long(l: int) | Float(f: real) | Symbol(name: string)
  {
    predicate IsNumeric() { !Symbol? }
  }

  /** An atom of an emitted list. */
  datatype OutAtom = Sym(name: string) | Int(i: int) | Real(r: real)

  /** The diagnostics the object reports instead of changing its state. */
  datatype Diagnostic =
    | NonNumericInput   // a list with a non-numeric element
    | BadMaxLength      // max_length given a non-numeric value
    | MaxLengthTooSmall // max_length given a value of 16 or less
    | BadCalcOnInput    // calc_on_input given a non-numeric value
    | BadSizeWarning    // size_warning given a non-numeric value

  const DefaultMaxLength := 256

  /** A new capacity must be strictly greater than this. */
  const MaxLengthFloor := 16

  /** A C cast from double to long: truncation toward zero. */
  function TruncateTowardZero(f: real): (r: int)
    ensures f >= 0.0 ==> 0 <= r && r as real <= f < r as real + 1.0
    ensures f < 0.0 ==> r <= 0 && r as real - 1.0 < f <= r as real
  {
    if f >= 0.0 then f.Floor else -((-f).Floor)
  }

  /** The integer an attribute setter reads from a numeric atom. */
  function AttributeValue(a: Atom): int
    requires a.IsNumeric()
  {
    match a
    case Long(l) => l
    case Float(f) => TruncateTowardZero(f)
  }

  /** The sample a numeric atom of a list contributes. */
  function SampleValue(a: Atom): real
    requires a.IsNumeric()
  {
    match a
    case Long(l) => l as real
    case Float(f) => f
  }

  ghost predicate AllNumeric(args: seq<Atom>)
  {
    forall k :: 0 <= k < |args| ==> args[k].IsNumeric()
  }

  /** The samples of an all-numeric list, in order. */
  function Samples(args: seq<Atom>): (r: seq<real>)
    requires AllNumeric(args)
    ensures |r| == |args|
  {
    seq(|args|, k requires 0 <= k < |args| => SampleValue(args[k]))
  }

  /** The clamp of the flag setters: anything above 1 is 1, anything below 0
      is 0. */
  function Clamp01(v: int): (r: int)
    ensures r == 0 || r == 1
    ensures r == 1 <==> v >= 1
  {
    if v > 1 then 1 else if v < 0 then 0 else v
  }

  function Reals(s: seq<real>): (r: seq<OutAtom>)
    ensures |r| == |s| && forall k :: 0 <= k < |s| ==> r[k] == Real(s[k])
  {
    seq(|s|, k requires 0 <= k < |s| => Real(s[k]))
  }

  /** The list that `dump` means to emit: the label followed by every sample. */
  function DumpList(samples: seq<real>): (r: seq<OutAtom>)
    ensures |r| == |samples| + 1 && r[0] == Sym("values") && r[1..] == Reals(samples)
  {
    [Sym("values")] + Reals(samples)
  }

  /** The in-place copy of the source's buffer shifts: `count` elements move
      `offset` places towards the front; the rest of the array stays. */
  method ShiftLeft(a: array<real>, offset: int, count: int)
    requires 0 <= offset && 0 <= count && offset + count <= a.Length
    modifies a
    ensures a[..count] == old(a[offset..offset + count])
    ensures a[count..] == old(a[count..])
  {
    var k := 0;
    while k < count
      invariant 0 <= k <= count
      invariant forall m :: 0 <= m < k ==> a[m] == old(a[m + offset])
      invariant forall m :: k <= m < a.Length ==> a[m] == old(a[m])
    {
      a[k] := a[k + offset];
      k := k + 1;
    }
  }

  /** A copy of `count` elements from one array into another; the rest of the
      destination stays. */
  method CopyInto(src: array<real>, from: int, dst: array<real>, to: int, count: int)
    requires src != dst
    requires 0 <= from && 0 <= to && 0 <= count
    requires from + count <= src.Length && to + count <= dst.Length
    modifies dst
    ensures dst[..to] == old(dst[..to])
    ensures dst[to..to + count] == src[from..from + count]
    ensures dst[to + count..] == old(dst[to + count..])
  {
    var k := 0;
    while k < count
      invariant 0 <= k <= count
      invariant forall m :: to <= m < to + k ==> dst[m] == src[m - to + from]
      invariant forall m :: 0 <= m < to ==> dst[m] == old(dst[m])
      invariant forall m :: to + k <= m < dst.Length ==> dst[m] == old(dst[m])
    {
      dst[to + k] := src[from + k];
      k := k + 1;
    }
  }

  /** A new array of `size` elements that starts with `count` elements of
      `src` from index `from`: the copy of a capacity change. */
  method Reallocate(src: array<real>, from: int, count: int, size: int) returns (r: array<real>)
    requires 0 <= from && 0 <= count <= size && from + count <= src.Length
    ensures fresh(r) && r.Length == size
    ensures r[..count] == src[from..from + count]
  {
    r := new real[size];
    CopyInto(src, from, r, 0, count);
    assert r[..count] == r[0..count];
  }

  /** Whether every atom of a list is numeric: the list handler's first loop. */
  method CheckNumeric(args: seq<Atom>) returns (ok: bool)
    ensures ok == AllNumeric(args)
  {
    var i := 0;
    while i < |args|
      invariant 0 <= i <= |args|
      invariant forall k :: 0 <= k < i ==> args[k].IsNumeric()
    {
      if !args[i].IsNumeric() {
        return false;
      }
      i := i + 1;
    }
    return true;
  }

  /** The samples of `args[first..]`, converted into a new array: the list
      handler's second loop. */
  method ConvertSamples(args: seq<Atom>, first: int) returns (incoming: array<real>)
    requires AllNumeric(args) && 0 <= first <= |args|
    ensures fresh(incoming)
    ensures incoming[..] == Samples(args)[first..]
  {
    incoming := new real[|args| - first];
    var k := 0;
    while k < |args| - first
      invariant 0 <= k <= |args| - first
      invariant forall m :: 0 <= m < k ==> incoming[m] == SampleValue(args[first + m])
    {
      incoming[k] := SampleValue(args[first + k]);
      k := k + 1;
    }
  }

  class HurstObject {
    var length: int          // number of samples held
    var maxLength: int       // capacity of the buffer
    var calcOnInput: int     // 1: calculate after every single sample
    var showSizeWarning: int // 1: warn when there are too few samples
    var data: array<real>
    /** Every sample ever accepted, oldest first. */
    ghost var Pushed: seq<real>

    ghost predicate Valid()
      reads this, data
    {
      && data.Length == maxLength
      && MaxLengthFloor <= maxLength
      && 0 <= length <= maxLength
      && (calcOnInput == 0 || calcOnInput == 1)
      && (showSizeWarning == 0 || showSizeWarning == 1)
      && IsSuffix(data[..length], Pushed)
    }

    /** The samples held, oldest first. */
    function Contents(): seq<real>
      reads this, data
      requires 0 <= length <= data.Length
    {
      data[..length]
    }

    /** A new object: empty, capacity 256, both flags on. */
    constructor ()
      ensures Valid() && fresh(data)
      ensures length == 0 && maxLength == DefaultMaxLength
      ensures calcOnInput == 1 && showSizeWarning == 1
      ensures Contents() == [] && Pushed == []
    {
      length := 0;
      maxLength := DefaultMaxLength;
      calcOnInput := 1;
      showSizeWarning := 1;
      data := new real[DefaultMaxLength];
      Pushed := [];
    }

    /** The calculation on the samples held. */
    method Calculate() returns (outcome: Analysis.CalcOutcome)
      requires Valid()
      ensures outcome == Analysis.Outcome(Contents(), showSizeWarning)
    {
      outcome := Analysis.Calculate(data[..length], showSizeWarning);
    }

    /** The buffer update of a single sample, with the history it extends. */
    method Append(f: real)
      requires Valid()
      modifies this, data
      ensures Valid() && data == old(data)
      ensures Contents() == Newest(old(Contents()) + [f], maxLength)
      ensures old(length) < maxLength ==> length == old(length) + 1
      ensures old(length) == maxLength ==> length == maxLength
      ensures Pushed == old(Pushed) + [f]
      ensures maxLength == old(maxLength)
      ensures calcOnInput == old(calcOnInput) && showSizeWarning == old(showSizeWarning)
    {
      NewestKeepsSuffix(Contents(), Pushed, [f], maxLength);
      Store(f);
      Pushed := Pushed + [f];
    }

    /** A single sample is appended if there is room; otherwise every sample
        moves one place left, the oldest is lost and the new one goes last. */
    method Store(f: real)
      requires data.Length == maxLength && 1 <= maxLength && 0 <= length <= maxLength
      modifies this`length, data
      ensures 0 <= length <= maxLength
      ensures Contents() == Newest(old(Contents()) + [f], maxLength)
      ensures old(length) < maxLength ==> length == old(length) + 1
      ensures old(length) == maxLength ==> length == maxLength
    {
      ghost var before := Contents();
      PushCases(before, f, maxLength);
      if length == maxLength {
        ghost var held := data[..maxLength];
        ShiftLeft(data, 1, maxLength - 1);
        assert data[..maxLength - 1] == before[1..];
        data[maxLength - 1] := f;
        assert data[..length] == data[..maxLength - 1] + [f];
      } else {
        data[length] := f;
        length := length + 1;
        assert data[..length] == before + [f];
      }
    }

    /** A float sample: appended as above, then a calculation when
        calc_on_input is 1. */
    method PushFloat(f: real) returns (calculated: Option<Analysis.CalcOutcome>)
      requires Valid()
      modifies this, data
      ensures Valid() && data == old(data)
      ensures Contents() == Newest(old(Contents()) + [f], maxLength)
      ensures Pushed == old(Pushed) + [f]
      ensures maxLength == old(maxLength)
      ensures calcOnInput == old(calcOnInput) && showSizeWarning == old(showSizeWarning)
      ensures calculated == if calcOnInput == 1 then Some(Analysis.Outcome(Contents(), showSizeWarning)) else None
    {
      Append(f);
      calculated := None;
      if calcOnInput == 1 {
        var outcome := Calculate();
        calculated := Some(outcome);
      }
    }

    /** An integer sample: the float `n`, as the float handler. */
    method PushInt(n: int) returns (calculated: Option<Analysis.CalcOutcome>)
      requires Valid()
      modifies this, data
      ensures Valid() && data == old(data)
      ensures Contents() == Newest(old(Contents()) + [n as real], maxLength)
      ensures Pushed == old(Pushed) + [n as real]
      ensures maxLength == old(maxLength)
      ensures calcOnInput == old(calcOnInput) && showSizeWarning == old(showSizeWarning)
      ensures calculated == if calcOnInput == 1 then Some(Analysis.Outcome(Contents(), showSizeWarning)) else None
    {
      Append(n as real);
      calculated := None;
      if calcOnInput == 1 {
        var outcome := Calculate();
        calculated := Some(outcome);
      }
    }

    /** A list of samples. A non-numeric element is reported and nothing
        changes. Otherwise at most the newest `maxLength` of the incoming
        values are kept, as many of the oldest held samples as needed are
        evicted, and the values are appended. No calculation follows. */
    method PushList(args: seq<Atom>) returns (diag: Option<Diagnostic>)
      requires Valid()
      modifies this, data
      ensures Valid() && data == old(data)
      ensures diag == if AllNumeric(args) then None else Some(NonNumericInput)
      ensures !AllNumeric(args) ==> unchanged(this) && unchanged(data)
      ensures AllNumeric(args) ==>
        && Contents() == Newest(old(Contents()) + Samples(args), maxLength)
        && Pushed == old(Pushed) + Samples(args)
      ensures maxLength == old(maxLength)
      ensures calcOnInput == old(calcOnInput) && showSizeWarning == old(showSizeWarning)
    {
      var numeric := CheckNumeric(args);
      if !numeric {
        return Some(NonNumericInput);
      }
      ghost var before := Contents();
      ghost var values := Samples(args);
      // keep at most the newest maxLength incoming values
      var first := 0;
      if |args| > maxLength {
        first := |args| - maxLength;
      }
      var incoming := ConvertSamples(args, first);
      assert incoming[..] == Newest(values, maxLength);
      AppendBatch(incoming);
      NewestOfIncoming(before, values, maxLength);
      NewestKeepsSuffix(before, Pushed, values, maxLength);
      Pushed := Pushed + values;
      diag := None;
    }

    /** The buffer update of a list: evict as many of the oldest samples as
        the capacity requires, then append `incoming`. */
    method AppendBatch(incoming: array<real>)
      requires data.Length == maxLength && 0 <= length <= maxLength
      requires incoming != data && incoming.Length <= maxLength
      modifies this`length, data
      ensures 0 <= length <= maxLength
      ensures Contents() == Newest(old(Contents()) + incoming[..], maxLength)
    {
      ghost var before := Contents();
      var dataSize := incoming.Length;
      var total := length + dataSize;
      var evict := 0;
      if total > maxLength {
        evict := total - maxLength;
        Evict(evict);
      }
      AppendAll(incoming);
      NewestSplit(before, incoming[..], maxLength);
    }

    /** The oldest `evict` samples are dropped: the rest move to the front. */
    method Evict(evict: int)
      requires data.Length == maxLength && 0 <= evict <= length <= maxLength
      modifies this`length, data
      ensures length == old(length) - evict
      ensures Contents() == old(Contents())[evict..]
    {
      ghost var before := Contents();
      ghost var moved := data[evict..maxLength];
      assert before[evict..] == moved[..length - evict];
      ShiftLeft(data, evict, maxLength - evict);
      length := if length - evict > 0 then length - evict else 0;
      assert data[..length] == data[..maxLength - evict][..length];
    }

    /** `incoming` is copied after the samples held. */
    method AppendAll(incoming: array<real>)
      requires data.Length == maxLength && incoming != data
      requires 0 <= length && length + incoming.Length <= maxLength
      modifies this`length, data
      ensures length == old(length) + incoming.Length
      ensures Contents() == old(Contents()) + incoming[..]
    {
      ghost var kept := Contents();
      var dataSize := incoming.Length;
      CopyInto(incoming, 0, data, length, dataSize);
      assert data[..length] == kept;
      assert data[length..length + dataSize] == incoming[..] by {
        assert incoming[0..dataSize] == incoming[..];
      }
      ghost var appended := data[..length + dataSize];
      assert appended == kept + incoming[..] by {
        assert appended == data[..length] + data[length..length + dataSize];
      }
      length := length + dataSize;
    }

    /** Set the capacity. An empty argument list does nothing; a non-numeric
        value or one not above 16 is reported and nothing changes; the current
        capacity does nothing. Otherwise the capacity becomes the new value and
        the newest samples that fit are kept, in order. When shrinking, the
        length is clamped to the new capacity. */
    method SetMaxLength(args: seq<Atom>) returns (diag: Option<Diagnostic>)
      requires Valid()
      modifies this
      ensures Valid()
      ensures |args| == 0 ==> diag == None && unchanged(this)
      ensures |args| > 0 && !args[0].IsNumeric() ==> diag == Some(BadMaxLength) && unchanged(this)
      ensures |args| > 0 && args[0].IsNumeric() && AttributeValue(args[0]) <= MaxLengthFloor ==>
        diag == Some(MaxLengthTooSmall) && unchanged(this)
      ensures |args| > 0 && args[0].IsNumeric() && AttributeValue(args[0]) > MaxLengthFloor ==>
        && diag == None
        && maxLength == AttributeValue(args[0])
        && Contents() == Newest(old(Contents()), maxLength)
      ensures |args| > 0 && args[0].IsNumeric() && AttributeValue(args[0]) == old(maxLength) ==> unchanged(this)
      ensures |args| > 0 && args[0].IsNumeric() && AttributeValue(args[0]) > old(maxLength) ==> length == old(length)
      ensures data != old(data) ==> fresh(data)
      ensures calcOnInput == old(calcOnInput) && showSizeWarning == old(showSizeWarning)
      ensures Pushed == old(Pushed)
    {
      if |args| == 0 {
        return None;
      }
      if !args[0].IsNumeric() {
        return Some(BadMaxLength);
      }
      var newLength := AttributeValue(args[0]);
      if newLength <= MaxLengthFloor {
        return Some(MaxLengthTooSmall);
      }
      if newLength < maxLength {
        Shrink(newLength);
      } else if newLength > maxLength {
        Grow(newLength);
      }
      diag := None;
    }

    /** A smaller buffer holding the newest samples that fit; the length is
        clamped to the new capacity. */
    method Shrink(newLength: int)
      requires Valid() && MaxLengthFloor < newLength < maxLength
      modifies this
      ensures Valid() && fresh(data)
      ensures maxLength == newLength
      ensures Contents() == Newest(old(Contents()), newLength)
      ensures calcOnInput == old(calcOnInput) && showSizeWarning == old(showSizeWarning)
      ensures Pushed == old(Pushed)
    {
      ghost var before := Contents();
      var from := 0;
      if newLength < length {
        from := length - newLength;
      }
      var resized := Reallocate(data, from, newLength, newLength);
      var newCount := if length > newLength then newLength else length;
      assert resized[..newCount] == before[from..] by {
        assert resized[..newCount] == resized[..newLength][..newCount];
      }
      SuffixTransitive(before[from..], before, Pushed);
      data := resized;
      maxLength := newLength;
      length := newCount;
    }

    /** A larger buffer holding the same samples. */
    method Grow(newLength: int)
      requires Valid() && maxLength < newLength
      modifies this
      ensures Valid() && fresh(data)
      ensures maxLength == newLength && length == old(length)
      ensures Contents() == old(Contents())
      ensures calcOnInput == old(calcOnInput) && showSizeWarning == old(showSizeWarning)
      ensures Pushed == old(Pushed)
    {
      ghost var before := Contents();
      var resized := Reallocate(data, 0, maxLength, newLength);
      assert resized[..length] == before by {
        assert resized[..length] == resized[..maxLength][..length];
      }
      data := resized;
      maxLength := newLength;
    }

    /** Set calc_on_input to the value clamped into {0, 1}; a non-numeric value
        is reported and nothing changes. */
    method SetCalcOnInput(args: seq<Atom>) returns (diag: Option<Diagnostic>)
      requires Valid()
      modifies this
      ensures Valid()
      ensures |args| == 0 ==> diag == None && unchanged(this)
      ensures |args| > 0 && !args[0].IsNumeric() ==> diag == Some(BadCalcOnInput) && unchanged(this)
      ensures |args| > 0 && args[0].IsNumeric() ==>
        diag == None && calcOnInput == Clamp01(AttributeValue(args[0]))
      ensures length == old(length) && maxLength == old(maxLength) && data == old(data)
      ensures showSizeWarning == old(showSizeWarning) && Pushed == old(Pushed)
    {
      if |args| == 0 {
        return None;
      }
      if !args[0].IsNumeric() {
        return Some(BadCalcOnInput);
      }
      calcOnInput := Clamp01(AttributeValue(args[0]));
      diag := None;
    }

    /** Set size_warning to the value clamped into {0, 1}; a non-numeric value
        is reported and nothing changes. */
    method SetSizeWarning(args: seq<Atom>) returns (diag: Option<Diagnostic>)
      requires Valid()
      modifies this
      ensures Valid()
      ensures |args| == 0 ==> diag == None && unchanged(this)
      ensures |args| > 0 && !args[0].IsNumeric() ==> diag == Some(BadSizeWarning) && unchanged(this)
      ensures |args| > 0 && args[0].IsNumeric() ==>
        diag == None && showSizeWarning == Clamp01(AttributeValue(args[0]))
      ensures length == old(length) && maxLength == old(maxLength) && data == old(data)
      ensures calcOnInput == old(calcOnInput) && Pushed == old(Pushed)
    {
      if |args| == 0 {
        return None;
      }
      if !args[0].IsNumeric() {
        return Some(BadSizeWarning);
      }
      showSizeWarning := Clamp01(AttributeValue(args[0]));
      diag := None;
    }

    /** Empty the buffer; the capacity and the flags stay. */
    method Clear()
      requires Valid()
      modifies this
      ensures Valid()
      ensures Contents() == [] && length == 0
      ensures maxLength == old(maxLength) && data == old(data)
      ensures calcOnInput == old(calcOnInput) && showSizeWarning == old(showSizeWarning)
      ensures Pushed == old(Pushed)
    {
      length := 0;
    }

    /** The lists `dump` emits: nothing when the buffer is empty, otherwise
        one list, the label "values" followed by every sample held. */
    method Dump() returns (out: seq<seq<OutAtom>>)
      requires Valid()
      ensures length == 0 ==> out == []
      ensures length > 0 ==> out == [DumpList(Contents())]
    {
      if length == 0 {
        return [];
      }
      var list := [Sym("values")];
      var i := 0;
      while i < length
        invariant 0 <= i <= length
        invariant list == [Sym("values")] + Reals(data[..i])
      {
        assert data[..i + 1] == data[..i] + [data[i]];
        list := list + [Real(data[i])];
        i := i + 1;
      }
      assert data[..length] == Contents();
      out := [list];
    }

    /** The lists `getstate` emits: calc_on_input, max_length, length and
        size_warning, each as a label and a value, then what `dump` emits. */
    method GetState() returns (out: seq<seq<OutAtom>>)
      requires Valid()
      ensures |out| >= 4
      ensures out[..4] == [
        [Sym("calc_on_input"), Int(calcOnInput)],
        [Sym("max_length"), Int(maxLength)],
        [Sym("length"), Int(length)],
        [Sym("size_warning"), Int(showSizeWarning)]]
      ensures out[4..] == if length == 0 then [] else [DumpList(Contents())]
    {
      var dumped := Dump();
      out := [
        [Sym("calc_on_input"), Int(calcOnInput)],
        [Sym("max_length"), Int(maxLength)],
        [Sym("length"), Int(length)],
        [Sym("size_warning"), Int(showSizeWarning)]] + dumped;
    }
  }

  /** The object's fields as plain values, for stating the source's resize as
      written. */
  datatype Fields = Fields(length: int, maxLength: int, data: seq<real>)

  /** The shrinking branch of the capacity setter as written: it copies the
      newest `c` samples but leaves the length as it was. */
  function ShrinkAsWritten(st: Fields, c: int): (r: Fields)
    requires MaxLengthFloor < c < st.maxLength
    requires |st.data| == st.maxLength && 0 <= st.length <= st.maxLength
    ensures r.maxLength == c && |r.data| == c && r.length == st.length
  {
    var from := if c < st.length then st.length - c else 0;
    Fields(st.length, c, st.data[from..from + c])
  }

  /** Shrinking a buffer that holds more samples than the new capacity leaves
      the length above the capacity: the next single sample is written at
      index `length`, past the end of the new array. */
  lemma ShrinkAsWrittenBreaksBound(st: Fields, c: int)
    requires MaxLengthFloor < c < st.maxLength
    requires |st.data| == st.maxLength && 0 <= st.length <= st.maxLength
    requires c < st.length
    ensures ShrinkAsWritten(st, c).length > |ShrinkAsWritten(st, c).data|
  {
  }

  /** The list `dump` emits as written: the atom count passed along is the
      number of samples, which leaves out the last atom of the list. */
  function DumpListAsWritten(samples: seq<real>): (r: seq<OutAtom>)
    requires |samples| > 0
    ensures |r| == |samples|
  {
    DumpList(samples)[..|samples|]
  }

  /** As written, `dump` never emits the newest sample: after the label come
      only the first `length - 1` samples. */
  lemma DumpAsWrittenDropsNewest(samples: seq<real>)
    requires |samples| > 0
    ensures DumpListAsWritten(samples) == [Sym("values")] + Reals(samples[..|samples| - 1])
    ensures DumpListAsWritten(samples) != DumpList(samples)
  {
    var r := DumpListAsWritten(samples);
    assert r[1..] == Reals(samples[..|samples| - 1]);
    assert |DumpList(samples)| != |r|;
  }
}
