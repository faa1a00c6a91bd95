/**
  The declaration of one command-line parameter (`DecentParam` and its
  `Multiple` and `Choice` variants): which parameters are compulsory, how a
  default is validated, how a string from the command line becomes a value,
  and how the parameter describes itself in the help text.
*/
module DecentParams {
  import opened Wrappers
  import opened PyStr
  import opened PyValues

  /** The `not_given` marker: the default of `default`, a plain string. */
  const NotGiven: PyValue := PyStr("DefaultNotGiven")

  /** The comma that separates several values in one string. */
  const Comma: char := ','

  /** The Python type a parameter declares. `OtherType` is any other class,
      known by its name. */
  datatype PType = StrType | FloatType | IntType | BoolType | ListType | OtherType(typeName: string)

  /** Which class declared the parameter: `DecentParam` (and
      `DecentParamFlag`, which differs only in its command-line wiring),
      `DecentParamMultiple` or `DecentParamChoice`. */
  datatype Kind = Single | Multiple | ChoiceOf(choices: seq<PyValue>)

  /** The `DecentParamsSemanticError`s and the errors of `int()`. */
  datatype ParamError =
    | WrongType(name: string, expected: PType, got: string)   // check_type
    | NotAList(value: PyValue)                                // DecentParamMultiple.validate
    | NotAmongChoices(value: PyValue, choices: seq<PyValue>)  // DecentParamChoice.validate
    | UnknownType(ptype: PType)                               // value_from_string
    | NotAnInt(s: string)                                     // int(s) raising ValueError

  // ---------------------------------------------------------------------------
  // check_type and validate

  /** `isinstance(x, t)`; `bool` is a subclass of `int` and `Choice` of `list`,
      while a `long` is not an `int`. */
  predicate IsInstance(x: PyValue, t: PType) {
    match t
    case StrType => x.PyStr?
    case FloatType => x.PyFloat?
    case IntType => (x.PyInt? && IsShortInt(x.i)) || x.PyBool?
    case BoolType => x.PyBool?
    case ListType => x.PyList? || x.PyChoice?
    case OtherType(n) => TypeName(x) == n
  }

  predicate IsList(x: PyValue) {
    IsInstance(x, ListType)
  }

  /** `check_type(x)`: `x` must be an instance of the declared type, where a
      `float` parameter also takes an `int`. */
  function CheckType(name: string, ptype: PType, x: PyValue): (r: Result<(), ParamError>)
    ensures r.Err? ==> r.error == WrongType(name, ptype, TypeName(x))
  {
    var ok := if ptype == FloatType then IsInstance(x, FloatType) || IsInstance(x, IntType) else IsInstance(x, ptype);
    if ok then Ok(()) else Err(WrongType(name, ptype, TypeName(x)))
  }

  /** Python's bool is an int, so an `int` parameter takes `True`; a `float`
      parameter takes an `int` and a `bool` too; neither takes a `long`; a
      `str` parameter takes nothing but a string. */
  lemma CheckTypeNumbers(name: string, x: PyValue)
    ensures CheckType(name, IntType, x).Ok? <==> (x.PyInt? && IsShortInt(x.i)) || x.PyBool?
    ensures CheckType(name, FloatType, x).Ok? <==> x.PyFloat? || (x.PyInt? && IsShortInt(x.i)) || x.PyBool?
    ensures CheckType(name, StrType, x).Ok? <==> x.PyStr?
    ensures CheckType(name, BoolType, x).Ok? <==> x.PyBool?
  {
  }

  /** The loop of `DecentParamMultiple.validate`: every element is type
      checked, and the first one that fails raises. */
  function CheckEach(name: string, ptype: PType, xs: seq<PyValue>): (r: Result<(), ParamError>)
    ensures r.Ok? <==> forall k :: 0 <= k < |xs| ==> CheckType(name, ptype, xs[k]).Ok?
    ensures r.Err? ==> exists k :: 0 <= k < |xs| && CheckType(name, ptype, xs[k]) == r &&
                         forall j :: 0 <= j < k ==> CheckType(name, ptype, xs[j]).Ok?
  {
    if |xs| == 0 then Ok(())
    else
      match CheckType(name, ptype, xs[0])
      case Err(e) => Err(e)
      case Ok(_) =>
        var rest := CheckEach(name, ptype, xs[1..]);
        assert forall k :: 1 <= k < |xs| ==> xs[k] == xs[1..][k - 1];
        if rest.Err? then
          var k :| 0 <= k < |xs| - 1 && CheckType(name, ptype, xs[1..][k]) == rest &&
                   forall j :: 0 <= j < k ==> CheckType(name, ptype, xs[1..][j]).Ok?;
          assert CheckType(name, ptype, xs[k + 1]) == rest;
          rest
        else rest
  }

  /** `validate(value)` of each class. */
  function Validate(kind: Kind, name: string, ptype: PType, value: PyValue): (r: Result<(), ParamError>)
    ensures kind.Single? ==> r == CheckType(name, ptype, value)
    ensures kind.Multiple? ==> (r.Ok? <==> IsList(value) && forall k :: 0 <= k < |Items(value)| ==>
                                              CheckType(name, ptype, Items(value)[k]).Ok?)
    ensures kind.Multiple? && !IsList(value) ==> r == Err(NotAList(value))
    ensures kind.ChoiceOf? ==> (r.Ok? <==> PyIn(value, kind.choices))
    ensures kind.ChoiceOf? && r.Err? ==> r.error == NotAmongChoices(value, kind.choices)
  {
    match kind
    case Single => CheckType(name, ptype, value)
    case Multiple => if !IsList(value) then Err(NotAList(value)) else CheckEach(name, ptype, Items(value))
    case ChoiceOf(choices) => if PyIn(value, choices) then Ok(()) else Err(NotAmongChoices(value, choices))
  }

  /** The elements of a list (or `Choice`). */
  function Items(value: PyValue): seq<PyValue> {
    if value.PyList? then value.items else if value.PyChoice? then value.options else []
  }

  // ---------------------------------------------------------------------------
  // value_from_string

  /** The conversion of one piece without a comma, by declared type. `float()`
      is not modelled: the piece is kept as the float's literal. */
  function Scalar(ptype: PType, s: string): (r: Result<PyValue, ParamError>)
    ensures ptype == StrType ==> r == Ok(PyStr(s))
    ensures ptype == BoolType ==> r == Ok(PyBool(s != ""))
    ensures ptype == IntType ==> (r.Ok? <==> ParseInt(s).Some?)
    ensures ptype == IntType && r.Ok? ==> r.value == PyInt(ParseInt(s).value)
    ensures ptype == ListType || ptype.OtherType? ==> r == Err(UnknownType(ptype))
    ensures r.Ok? && ptype != IntType ==> IsInstance(r.value, ptype)
    ensures r.Ok? && ptype == IntType ==> (IsInstance(r.value, IntType) <==> IsShortInt(r.value.i))
  {
    match ptype
    case StrType => Ok(PyStr(s))
    case FloatType => Ok(PyFloat(s))
    case IntType => (match ParseInt(s) case Some(i) => Ok(PyInt(i)) case None => Err(NotAnInt(s)))
    case BoolType => Ok(PyBool(|s| > 0))
    case _ => Err(UnknownType(ptype))
  }

  /** The list comprehension over the comma-separated pieces: one value per
      piece, in order, or the first piece's error. */
  function ConvertPieces(ptype: PType, pieces: seq<string>): (r: Result<seq<PyValue>, ParamError>)
    ensures r.Ok? ==> |r.value| == |pieces| && forall k :: 0 <= k < |pieces| ==> Scalar(ptype, pieces[k]) == Ok(r.value[k])
    ensures r.Err? <==> exists k :: 0 <= k < |pieces| && Scalar(ptype, pieces[k]).Err?
    ensures r.Err? ==> exists k :: 0 <= k < |pieces| && Scalar(ptype, pieces[k]) == Err(r.error) &&
                         forall j :: 0 <= j < k ==> Scalar(ptype, pieces[j]).Ok?
  {
    if |pieces| == 0 then Ok([])
    else
      match Scalar(ptype, pieces[0])
      case Err(e) => Err(e)
      case Ok(v) =>
        var rest := ConvertPieces(ptype, pieces[1..]);
        assert forall k :: 1 <= k < |pieces| ==> pieces[k] == pieces[1..][k - 1];
        match rest
        case Err(e) =>
          var k :| 0 <= k < |pieces| - 1 && Scalar(ptype, pieces[1..][k]) == Err(e) &&
                   forall j :: 0 <= j < k ==> Scalar(ptype, pieces[1..][j]).Ok?;
          assert Scalar(ptype, pieces[k + 1]) == Err(e);
          Err(e)
        case Ok(vs) => Ok([v] + vs)
  }

  /** `value_from_string(s)`. A `DecentParamMultiple` gives the list of the
      converted pieces; the other classes give a `Choice` of them when `s`
      holds a comma, and the converted string otherwise. */
  function ValueFromString(kind: Kind, ptype: PType, s: string): (r: Result<PyValue, ParamError>)
    ensures kind.Multiple? ==> (r.Ok? <==> ConvertPieces(ptype, Split(s, Comma)).Ok?)
    ensures kind.Multiple? && r.Ok? ==> r.value == PyList(ConvertPieces(ptype, Split(s, Comma)).value)
    ensures !kind.Multiple? && Comma in s ==> (r.Ok? <==> ConvertPieces(ptype, Split(s, Comma)).Ok?)
    ensures !kind.Multiple? && Comma in s && r.Ok? ==> r.value == PyChoice(ConvertPieces(ptype, Split(s, Comma)).value)
    ensures !kind.Multiple? && Comma !in s ==> r == Scalar(ptype, s)
  {
    if kind.Multiple? then
      var vs :- ConvertPieces(ptype, Split(s, Comma));
      Ok(PyList(vs))
    else if Comma in s then
      var vs :- ConvertPieces(ptype, Split(s, Comma));
      Ok(PyChoice(vs))
    else Scalar(ptype, s)
  }

  /** A `str` parameter given comma-free pieces joined by commas gets back the
      `Choice` of exactly those pieces. */
  lemma StrChoiceRoundTrip(pieces: seq<string>)
    requires |pieces| >= 2
    requires forall k :: 0 <= k < |pieces| ==> Comma !in pieces[k]
    ensures ValueFromString(Single, StrType, Join([Comma], pieces))
         == Ok(PyChoice(seq(|pieces|, k requires 0 <= k < |pieces| => PyStr(pieces[k]))))
  {
    var s := Join([Comma], pieces);
    SplitJoin(pieces, Comma);
    SplitCount(s, Comma);
    assert Count(s, Comma) >= 1;
    CommaCounted(s);
    var vs := ConvertPieces(StrType, pieces).value;
    assert vs == seq(|pieces|, k requires 0 <= k < |pieces| => PyStr(pieces[k]));
  }

  lemma {:induction false} CommaCounted(s: string)
    requires Count(s, Comma) >= 1
    ensures Comma in s
  {
    if s[0] != Comma {
      CommaCounted(s[1..]);
    }
  }

  /** An `int` parameter reads back the integer it is given in decimal. */
  lemma IntRoundTrip(kind: Kind, i: int)
    requires !kind.Multiple?
    ensures ValueFromString(kind, IntType, IntToString(i)) == Ok(PyInt(i))
  {
    ParseIntOfIntToString(i);
    var d := Digits(if i < 0 then -i else i);
    assert forall k :: 0 <= k < |d| ==> d[k] != Comma;
    assert Comma !in IntToString(i) by {
      if i < 0 {
        assert IntToString(i) == "-" + d;
        forall k | 0 <= k < |IntToString(i)| ensures IntToString(i)[k] != Comma {
          if k > 0 {
            assert IntToString(i)[k] == d[k - 1];
          }
        }
      }
    }
  }

  /** `int()` of a decimal beyond `sys.maxint` gives a `long`, which the
      parameter's own `check_type` then refuses. */
  lemma LongFailsValidation(name: string, i: int)
    requires !IsShortInt(i)
    ensures ValueFromString(Single, IntType, IntToString(i)) == Ok(PyInt(i))
    ensures Validate(Single, name, IntType, PyInt(i)) == Err(WrongType(name, IntType, "long"))
  {
    IntRoundTrip(Single, i);
  }

  /** What a `DecentParamMultiple` parses passes its own validation, unless
      `int()` gave a `long` for one of the pieces. */
  lemma ParsedMultipleValidates(name: string, ptype: PType, s: string)
    requires ValueFromString(Multiple, ptype, s).Ok?
    ensures var vs := Items(ValueFromString(Multiple, ptype, s).value);
            Validate(Multiple, name, ptype, PyList(vs)).Ok? <==>
            forall k :: 0 <= k < |vs| ==> !vs[k].PyInt? || IsShortInt(vs[k].i)
  {
    var vs := ConvertPieces(ptype, Split(s, Comma)).value;
    assert Items(PyList(vs)) == vs;
    forall k | 0 <= k < |vs|
      ensures CheckType(name, ptype, vs[k]).Ok? <==> !vs[k].PyInt? || IsShortInt(vs[k].i)
    {
      assert Scalar(ptype, Split(s, Comma)[k]) == Ok(vs[k]);
    }
  }

  // ---------------------------------------------------------------------------
  // get_desc

  /** `'%s' % desc`: a missing description prints as `None`. */
  function DescStr(desc: Option<string>): string {
    if desc.None? then "None" else desc.value
  }

  /** `'%8s' % s`: right-aligned in a field of at least eight characters. */
  function Pad8(s: string): (r: string)
    ensures |r| == if |s| < 8 then 8 else |s|
    ensures EndsWith(r, s)
    ensures forall k :: 0 <= k < |r| - |s| ==> r[k] == ' '
  {
    var pad := seq(if |s| < 8 then 8 - |s| else 0, _ => ' ');
    assert (pad + s)[|pad| ..] == s;
    pad + s
  }

  const RequiredTag: string := "[*required*] "

  // ---------------------------------------------------------------------------
  // The parameter

  class DecentParam {
    const kind: Kind
    const ptype: PType
    const name: string
    const default: PyValue
    const desc: Option<string>
    const compulsory: bool
    const short: Option<string>
    const allowMulti: bool
    const group: Option<string>
    /** `_value`, which exists once `set_from_string` has succeeded. */
    var value: Option<PyValue>

    /** `__init__` up to the validation of the default, with the wrapping of
        `DecentParamMultiple.__init__` done first: a parameter is compulsory
        exactly when its default is the `not_given` marker, and then its
        default becomes `None`. */
    constructor(kind: Kind, ptype: PType, name: string, default: PyValue, help: Option<string>,
                short: Option<string>, allowMulti: bool, group: Option<string>)
      ensures this.compulsory <==> default == NotGiven
      ensures this.compulsory ==> this.default == PyNone
      ensures !this.compulsory ==> this.default == MultipleDefault(kind, default)
      ensures this.kind == kind && this.ptype == ptype && this.name == name && this.desc == help
      ensures this.short == short && this.allowMulti == allowMulti && this.group == group
      ensures this.value.None?
    {
      var d := MultipleDefault(kind, default);
      this.kind := kind;
      this.ptype := ptype;
      this.name := name;
      this.compulsory := d == NotGiven;
      this.default := if d == NotGiven then PyNone else d;
      this.desc := help;
      this.short := short;
      this.allowMulti := allowMulti;
      this.group := group;
      this.value := None;
    }

    /** The whole of `__init__`: a default other than `None` must pass
        `validate`, or the construction raises. */
    static method New(kind: Kind, ptype: PType, name: string, default: PyValue, help: Option<string>,
                      short: Option<string>, allowMulti: bool, group: Option<string>)
      returns (r: Result<DecentParam, ParamError>)
      ensures r.Err? <==> default != NotGiven && MultipleDefault(kind, default) != PyNone &&
                          Validate(kind, name, ptype, MultipleDefault(kind, default)).Err?
      ensures r.Err? ==> r.error == Validate(kind, name, ptype, MultipleDefault(kind, default)).error
      ensures r.Ok? ==> fresh(r.value) && r.value.kind == kind && r.value.ptype == ptype && r.value.name == name &&
                        r.value.value.None? && (r.value.compulsory <==> default == NotGiven)
      ensures r.Ok? && !r.value.compulsory ==> r.value.default == MultipleDefault(kind, default)
      ensures r.Ok? ==> r.value.Validated()
    {
      var p := new DecentParam(kind, ptype, name, default, help, short, allowMulti, group);
      if p.default != PyNone {
        var v := Validate(kind, name, ptype, p.default);
        if v.Err? {
          return Err(v.error);
        }
      }
      return Ok(p);
    }

    /** The default passed validation, or there is none. */
    predicate Validated() {
      default == PyNone || Validate(kind, name, ptype, default).Ok?
    }

    /** `set_from_string(s)`: `_value` becomes the parsed value; when parsing
        raises, `_value` is left as it was. */
    method SetFromString(s: string) returns (r: Result<(), ParamError>)
      modifies this
      ensures r.Ok? <==> ValueFromString(kind, ptype, s).Ok?
      ensures r.Err? ==> r.error == ValueFromString(kind, ptype, s).error && value == old(value)
      ensures r.Ok? ==> value == Some(ValueFromString(kind, ptype, s).value)
    {
      var v := ValueFromString(kind, ptype, s);
      if v.Err? {
        return Err(v.error);
      }
      value := Some(v.value);
      return Ok(());
    }

    /** `get_desc()`: the help text, tagged as required for a compulsory
        parameter, or showing its default when there is one. */
    function GetDesc(): (r: Option<string>)
      ensures compulsory ==> r.Some? && StartsWith(r.value, RequiredTag) &&
                             r.value[|RequiredTag|..] == DescStr(desc)
      ensures !compulsory && default != PyNone ==>
                r.Some? && StartsWith(r.value, "[default: ") && EndsWith(r.value, "] " + DescStr(desc)) &&
                |r.value| == 12 + |Pad8(Str(default))| + |DescStr(desc)| &&
                r.value[10..10 + |Pad8(Str(default))|] == Pad8(Str(default))
      ensures !compulsory && default == PyNone ==> r == desc
    {
      if compulsory then
        var t := RequiredTag + DescStr(desc);
        assert t[..|RequiredTag|] == RequiredTag && t[|RequiredTag|..] == DescStr(desc);
        Some(t)
      else if default != PyNone then
        var tail := "] " + DescStr(desc);
        var t := "[default: " + Pad8(Str(default)) + tail;
        assert t[..10] == "[default: ";
        assert t[|t| - |tail|..] == tail;
        assert t[10..10 + |Pad8(Str(default))|] == Pad8(Str(default));
        Some(t)
      else desc
    }
  }

  /** `DecentParamMultiple.__init__`: a given default that is not a list
      is wrapped into a one-element list. */
  function MultipleDefault(kind: Kind, default: PyValue): (d: PyValue)
    ensures !kind.Multiple? || default == NotGiven || IsList(default) ==> d == default
    ensures kind.Multiple? && default != NotGiven ==> IsList(d) && (IsList(default) || d == PyList([default]))
  {
    if kind.Multiple? && default != NotGiven && !IsList(default) then PyList([default]) else default
  }

  /** A `DecentParamChoice` whose default is not among its choices cannot be
      constructed. */
  lemma ChoiceDefaultMustBeAChoice(choices: seq<PyValue>, name: string, ptype: PType, default: PyValue)
    requires default != NotGiven && default != PyNone && !PyIn(default, choices)
    ensures Validate(ChoiceOf(choices), name, ptype, MultipleDefault(ChoiceOf(choices), default))
         == Err(NotAmongChoices(default, choices))
  {
  }

  // ---------------------------------------------------------------------------
  // The parsed values

  /** `DecentParamsResults`: the parsed values by name, and the names given
      explicitly on the command line. */
  class DecentParamsResults {
    const values: map<string, PyValue>
    const given: set<string>

    constructor(values: map<string, PyValue>, given: set<string>)
      ensures this.values == values && this.given == given
    {
      this.values := values;
      this.given := given;
    }

    /** `given(name)` */
    predicate Given(name: string)
      ensures Given(name) <==> name in given
    {
      name in given
    }

    /** `results[name]`, which raises `KeyError` (`None` here) for a name
        without a value. */
    function Get(name: string): (r: Option<PyValue>)
      ensures r.Some? <==> name in values
      ensures r.Some? ==> r.value == values[name]
    {
      if name in values then Some(values[name]) else None
    }
  }
}
