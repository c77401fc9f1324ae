/**
 * `Select`: the form select that wraps react-select for React Hook Form.
 * It turns the form's `value` (any JS value) into react-select's selection,
 * and react-select's change and blur notifications into synthetic events.
 * In native mode it renders a plain `<select>` whose first option is a
 * placeholder.
 *
 * Option values are strings or numbers compared with `===`, which on
 * these two cases is datatype equality. JS falsiness of a scalar is the
 * empty string and zero.
 */
module Select {
  import opened Wrappers

  datatype Scalar = Str(s: string) | Num(n: int)

  predicate TruthyScalar(x: Scalar)
  {
    match x
    case Str(s) => s != ""
    case Num(n) => n != 0
  }

  datatype SelectOption = SelectOption(value: Scalar, caption: string)

  /** One element of an array `value`. */
  datatype Elem =
    | ElemScalar(x: Scalar)         // a string or a number
    | ElemRecord(value: Option<Scalar>) // an object; `value` absent when undefined
    | ElemNull                      // null: reading `.value` of it throws
    | ElemOther                     // a boolean, undefined, an array: never matches

  /** The `value` prop. */
  datatype Value =
    | Missing            // undefined
    | Null
    | Bool(b: bool)
    | One(x: Scalar)
    | Many(elems: seq<Elem>)
    | Obj                // a non-array object

  predicate TruthyValue(v: Value)
  {
    match v
    case Missing => false
    case Null => false
    case Bool(b) => b
    case One(x) => TruthyScalar(x)
    case Many(_) => true
    case Obj => true
  }

  /** What react-select is given: one option or none, or a list of options. */
  datatype Selection = Single(choice: Option<SelectOption>) | Multi(choices: seq<SelectOption>)

  /** The conversion's outcome; it throws a TypeError on a null array element. */
  datatype Converted = Selected(sel: Selection) | Throws

  /** `options.find(o => o.value === v)`: the first option carrying `v`. */
  function Find(options: seq<SelectOption>, v: Scalar): (r: Option<SelectOption>)
    ensures r.Some? ==> r.value in options && r.value.value == v
    ensures r.None? <==> forall i :: 0 <= i < |options| ==> options[i].value != v
    ensures r.Some? ==>
      exists i :: 0 <= i < |options| && options[i] == r.value && forall j :: 0 <= j < i ==> options[j].value != v
    decreases |options|
  {
    if options == [] then None
    else if options[0].value == v then Some(options[0])
    else
      var r := Find(options[1..], v);
      if r.Some? then
        var i :| 0 <= i < |options[1..]| && options[1..][i] == r.value
          && forall j :: 0 <= j < i ==> options[1..][j].value != v;
        assert options[i + 1] == r.value;
        r
      else r
  }

  /** The value an array element is matched by: its `.value` when defined, else the element itself. */
  function MatchKey(e: Elem): (k: Option<Scalar>)
    ensures e.ElemScalar? ==> k == Some(e.x)
    ensures e.ElemRecord? ==> k == e.value
    ensures e.ElemNull? || e.ElemOther? ==> k.None?
  {
    match e
    case ElemScalar(x) => Some(x)
    case ElemRecord(v) => v
    case _ => None
  }

  /** The option an element selects, if any. */
  function Pick(options: seq<SelectOption>, e: Elem): Option<SelectOption>
  {
    if MatchKey(e).Some? then Find(options, MatchKey(e).value) else None
  }

  /** The option each element selects, position by position. */
  function Picks(options: seq<SelectOption>, es: seq<Elem>): (ps: seq<Option<SelectOption>>)
    ensures |ps| == |es|
    ensures forall i :: 0 <= i < |es| ==> ps[i] == Pick(options, es[i])
  {
    seq(|es|, i requires 0 <= i < |es| => Pick(options, es[i]))
  }

  /** The present values of a sequence of options, in order. */
  function Matched<T>(ps: seq<Option<T>>): seq<T>
    decreases |ps|
  {
    if ps == [] then [] else (if ps[0].Some? then [ps[0].value] else []) + Matched(ps[1..])
  }

  /**
   * The map-then-filter over an array: each element's match, unmatched
   * ones dropped, in order; None when an element is null, as the `.value`
   * access then throws.
   */
  function ConvertElems(options: seq<SelectOption>, es: seq<Elem>): (r: Option<seq<SelectOption>>)
    ensures r.None? <==> exists i :: 0 <= i < |es| && es[i].ElemNull?
    ensures r.Some? ==> |r.value| <= |es|
    ensures r.Some? ==> forall k :: 0 <= k < |r.value| ==> r.value[k] in options
    ensures r.Some? ==> r.value == Matched(Picks(options, es))
    decreases |es|
  {
    if es == [] then Some([])
    else
      var rest := ConvertElems(options, es[1..]);
      if es[0].ElemNull? || rest.None? then
        (if rest.None? then
          var i :| 0 <= i < |es[1..]| && es[1..][i].ElemNull?;
          assert es[i + 1].ElemNull?;
          None
        else None)
      else
        var p := Pick(options, es[0]);
        assert forall i :: 1 <= i < |es| ==> es[i] == es[1..][i - 1];
        assert Picks(options, es)[0] == p && Picks(options, es)[1..] == Picks(options, es[1..]);
        if p.Some? then Some([p.value] + rest.value) else rest
  }

  /** Converting a concatenation converts the parts in order. */
  lemma {:induction false} ConvertElemsAppend(options: seq<SelectOption>, a: seq<Elem>, b: seq<Elem>)
    ensures ConvertElems(options, a + b).Some? ==>
      ConvertElems(options, a).Some? && ConvertElems(options, b).Some?
      && ConvertElems(options, a + b).value == ConvertElems(options, a).value + ConvertElems(options, b).value
    decreases |a|
  {
    if a != [] {
      assert (a + b)[1..] == a[1..] + b;
      assert (a + b)[0] == a[0];
      ConvertElemsAppend(options, a[1..], b);
    } else {
      assert a + b == b;
    }
  }

  /** `reactSelectValue`: the selection shown for the form's value. */
  function Convert(options: seq<SelectOption>, v: Value, isMulti: bool): (c: Converted)
    ensures !TruthyValue(v) ==> c == Selected(if isMulti then Multi([]) else Single(None))
    ensures v.One? && TruthyScalar(v.x) ==> c == Selected(Single(Find(options, v.x)))
    ensures (v.Bool? && v.b) || v.Obj? ==> c == Selected(Single(None))
    ensures v.Many? ==> (c.Throws? <==> exists i :: 0 <= i < |v.elems| && v.elems[i].ElemNull?)
    ensures v.Many? && c.Selected? ==> c.sel.Multi? && |c.sel.choices| <= |v.elems|
    ensures v.Many? && c.Selected? ==> forall k :: 0 <= k < |c.sel.choices| ==> c.sel.choices[k] in options
    ensures v.Many? && c.Selected? ==> c.sel == Multi(ConvertElems(options, v.elems).value)
  {
    if !TruthyValue(v) then Selected(if isMulti then Multi([]) else Single(None))
    else match v
      case Many(es) =>
        if |es| > 0 then
          (match ConvertElems(options, es)
           case Some(chosen) => Selected(Multi(chosen))
           case None => Throws)
        else Selected(Multi([]))
      case One(x) => Selected(Single(Find(options, x)))
      case _ => Selected(Single(None))
  }

  /** What react-select hands to the change handler. */
  datatype NewValue = Cleared | Picked(o: SelectOption) | PickedMany(os: seq<SelectOption>)

  /** The synthetic event's `target.value`: a scalar, or the options themselves for a multi-select. */
  datatype Payload = PayloadScalar(x: Scalar) | PayloadOptions(os: seq<SelectOption>)

  datatype ChangeEvent = ChangeEvent(value: Payload, name: Option<string>, kind: string)

  datatype BlurEvent = BlurEvent(name: Option<string>, kind: string)

  /**
   * `handleReactSelectChange`: nothing without a handler; a multi-select
   * forwards the array as it is; a single select sends the option's value,
   * or "" when cleared or when that value is falsy.
   */
  function Change(hasHandler: bool, name: Option<string>, nv: NewValue): (e: Option<ChangeEvent>)
    ensures e.Some? <==> hasHandler
    ensures e.Some? ==> e.value.name == name && e.value.kind == "change"
    ensures e.Some? && nv.PickedMany? ==> e.value.value == PayloadOptions(nv.os)
    ensures e.Some? && nv.Picked? && TruthyScalar(nv.o.value) ==> e.value.value == PayloadScalar(nv.o.value)
    ensures e.Some? && (nv.Cleared? || (nv.Picked? && !TruthyScalar(nv.o.value))) ==>
      e.value.value == PayloadScalar(Str(""))
  {
    if !hasHandler then None
    else
      var payload := match nv
        case PickedMany(os) => PayloadOptions(os)
        case Picked(o) => if TruthyScalar(o.value) then PayloadScalar(o.value) else PayloadScalar(Str(""))
        case Cleared => PayloadScalar(Str(""));
      Some(ChangeEvent(payload, name, "change"))
  }

  /** `handleReactSelectBlur`: the field name only, and nothing without a handler. */
  function Blur(hasHandler: bool, name: Option<string>): (e: Option<BlurEvent>)
    ensures e.Some? <==> hasHandler
    ensures e.Some? ==> e.value.name == name && e.value.kind == "blur"
  {
    if hasHandler then Some(BlurEvent(name, "blur")) else None
  }

  /** The value the form stores from an emitted payload, and passes back as `value`. */
  function Stored(p: Payload): Value
  {
    match p
    case PayloadScalar(x) => One(x)
    case PayloadOptions(os) => Many(seq(|os|, i requires 0 <= i < |os| => ElemRecord(Some(os[i].value))))
  }

  /** No two options share a value, so `find` returns the one meant. */
  predicate DistinctValues(options: seq<SelectOption>)
  {
    forall i, j :: 0 <= i < j < |options| ==> options[i].value != options[j].value
  }

  lemma FindDistinct(options: seq<SelectOption>, o: SelectOption)
    requires DistinctValues(options) && o in options
    ensures Find(options, o.value) == Some(o)
  {
    var r := Find(options, o.value);
    var k :| 0 <= k < |options| && options[k] == o;
    var i :| 0 <= i < |options| && options[i] == r.value
      && forall j :: 0 <= j < i ==> options[j].value != o.value;
    assert !(i < k) && !(k < i);
  }

  /**
   * Round trip of a single select: the value emitted for a picked option
   * with a truthy value, fed back as the form's value, selects that option.
   */
  lemma SingleRoundTrip(options: seq<SelectOption>, name: Option<string>, o: SelectOption)
    requires DistinctValues(options) && o in options && TruthyScalar(o.value)
    ensures Convert(options, Stored(Change(true, name, Picked(o)).value.value), false) == Selected(Single(Some(o)))
  {
    FindDistinct(options, o);
  }

  /** Clearing a single select, fed back, shows no selection. */
  lemma ClearRoundTrip(options: seq<SelectOption>, name: Option<string>)
    ensures Convert(options, Stored(Change(true, name, Cleared).value.value), false) == Selected(Single(None))
  {
  }

  /** The elements the form stores for a list of options. */
  function Records(os: seq<SelectOption>): (es: seq<Elem>)
    ensures |es| == |os|
    ensures forall i :: 0 <= i < |os| ==> es[i] == ElemRecord(Some(os[i].value))
  {
    seq(|os|, i requires 0 <= i < |os| => ElemRecord(Some(os[i].value)))
  }

  lemma {:induction false} RecordsConvert(options: seq<SelectOption>, os: seq<SelectOption>)
    requires DistinctValues(options)
    requires forall k :: 0 <= k < |os| ==> os[k] in options
    ensures ConvertElems(options, Records(os)) == Some(os)
    decreases |os|
  {
    if os != [] {
      var es := Records(os);
      assert es[1..] == Records(os[1..]);
      RecordsConvert(options, os[1..]);
      FindDistinct(options, os[0]);
      assert Pick(options, es[0]) == Some(os[0]);
      assert os == [os[0]] + os[1..];
    }
  }

  /**
   * Round trip of a multi-select: the options forwarded on change, fed
   * back as the form's value, are selected again, all of them and in the
   * same order.
   */
  lemma MultiRoundTrip(options: seq<SelectOption>, name: Option<string>, os: seq<SelectOption>)
    requires DistinctValues(options)
    requires forall k :: 0 <= k < |os| ==> os[k] in options
    ensures Convert(options, Stored(Change(true, name, PickedMany(os)).value.value), true) == Selected(Multi(os))
  {
    assert Stored(PayloadOptions(os)) == Many(Records(os));
    RecordsConvert(options, os);
  }

  /** One `<option>` of the native select. */
  datatype NativeOption = NativeOption(value: Scalar, text: string)

  /** Native mode: the empty-valued placeholder, then every option in order. */
  function NativeOptions(options: seq<SelectOption>): (r: seq<NativeOption>)
    ensures |r| == |options| + 1
    ensures r[0] == NativeOption(Str(""), "Select an option")
    ensures forall i :: 0 <= i < |options| ==> r[i + 1] == NativeOption(options[i].value, options[i].caption)
  {
    [NativeOption(Str(""), "Select an option")]
      + seq(|options|, i requires 0 <= i < |options| => NativeOption(options[i].value, options[i].caption))
  }
}
