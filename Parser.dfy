/**
  The rules the deployment file gives to applications and processes, once the XML has
  been read: the text of each child element is an optional string, and each rule turns
  it into a value (a clamped sequence rank, a flag, a loading, a list of addresses).
  The program element of a process is chosen by direct name, else by the longest
  matching pattern, and may be replaced by the model it references.
 */
module Parser {
  import opened Wrappers
  import Application

  // ---------------------------------------------------------------------------------
  // Python's int() on a text: optional white space around an optionally signed run
  // of ASCII digits.
  // ---------------------------------------------------------------------------------

  predicate IsSpace(c: char)
  {
    c == ' ' || (9 <= c as int <= 13)
  }

  predicate IsDigit(c: char)
  {
    '0' <= c <= '9'
  }

  predicate AllDigits(s: string)
  {
    forall i :: 0 <= i < |s| ==> IsDigit(s[i])
  }

  function StripStart(s: string): string
  {
    if s != [] && IsSpace(s[0]) then StripStart(s[1..]) else s
  }

  function StripEnd(s: string): string
  {
    if s != [] && IsSpace(s[|s| - 1]) then StripEnd(s[..|s| - 1]) else s
  }

  /** Stripping keeps a contiguous part of the text. */
  lemma {:induction false} StripStartInside(s: string)
    ensures exists k :: 0 <= k <= |s| && StripStart(s) == s[k..]
  {
    if s != [] && IsSpace(s[0]) {
      StripStartInside(s[1..]);
      var k :| 0 <= k <= |s[1..]| && StripStart(s[1..]) == s[1..][k..];
      assert s[1..][k..] == s[k + 1..];
    } else {
      assert s == s[0..];
    }
  }

  lemma {:induction false} StripEndInside(s: string)
    ensures exists k :: 0 <= k <= |s| && StripEnd(s) == s[..k]
  {
    if s != [] && IsSpace(s[|s| - 1]) {
      StripEndInside(s[..|s| - 1]);
      var k :| 0 <= k <= |s| - 1 && StripEnd(s[..|s| - 1]) == s[..|s| - 1][..k];
      assert s[..|s| - 1][..k] == s[..k];
    } else {
      assert s == s[..|s|];
    }
  }

  lemma StripInside(s: string)
    ensures forall c :: c in StripEnd(StripStart(s)) ==> c in s
  {
    StripStartInside(s);
    StripEndInside(StripStart(s));
  }

  /** The value of a run of decimal digits, most significant first. */
  function DigitsValue(s: string): nat
    requires AllDigits(s)
  {
    if s == [] then 0 else DigitsValue(s[..|s| - 1]) * 10 + (s[|s| - 1] as int - '0' as int)
  }

  /**
    Python 2's int(text), or None where it raises ValueError: white space may surround
    the number and may also separate the sign from the digits.
   */
  function ParseInt(text: string): (r: Option<int>)
    ensures (forall i :: 0 <= i < |text| ==> !IsDigit(text[i])) ==> r.None?
    ensures r.Some? && r.value < 0 ==> '-' in text
  {
    var t := StripEnd(StripStart(text));
    StripInside(text);
    if t != [] && (t[0] == '-' || t[0] == '+') then
      var digits := StripStart(t[1..]);
      StripStartInside(t[1..]);
      if digits != [] && AllDigits(digits) then
        assert digits[0] in t by {
          var k :| 0 <= k <= |t[1..]| && digits == t[1..][k..];
          assert digits[0] == t[k + 1];
        }
        var v: int := DigitsValue(digits);
        Some(if t[0] == '-' then -v else v)
      else None
    else if t != [] && AllDigits(t) then
      assert t[0] in t;
      Some(DigitsValue(t))
    else None
  }

  function DigitChar(d: nat): char
    requires d < 10
  {
    ('0' as int + d) as char
  }

  /** The decimal digits of a natural number, as str() writes them. */
  function Digits(n: nat): string
  {
    if n < 10 then [DigitChar(n)] else Digits(n / 10) + [DigitChar(n % 10)]
  }

  /** The text str() gives for an integer. */
  function Decimal(n: int): string
  {
    if n < 0 then "-" + Digits(-n) else Digits(n)
  }

  lemma {:induction false} DigitsValueOfDigits(n: nat)
    ensures Digits(n) != [] && AllDigits(Digits(n)) && DigitsValue(Digits(n)) == n
  {
    if n >= 10 {
      DigitsValueOfDigits(n / 10);
      var s := Digits(n);
      assert s[..|s| - 1] == Digits(n / 10);
    }
  }

  /** int() reads back every number str() writes. */
  lemma ParseIntOfDecimal(n: int)
    ensures ParseInt(Decimal(n)) == Some(n)
  {
    var s := Decimal(n);
    DigitsValueOfDigits(if n < 0 then -n else n);
    assert StripStart(s) == s;
    assert StripEnd(s) == s;
    if n < 0 {
      assert s[1..] == Digits(-n);
      assert StripStart(s[1..]) == s[1..];
    }
  }

  /** Python 2's int() lets white space separate the sign from the digits. */
  lemma ParseIntSpaceAfterSign()
    ensures ParseInt(" - 5 ") == Some(-5)
    ensures ParseInt("+\t07") == Some(7)
  {
    assert StripEnd(StripStart(" - 5 ")) == "- 5";
    assert StripStart("- 5"[1..]) == "5";
    assert StripEnd(StripStart("+\t07")) == "+\t07";
    assert StripStart("+\t07"[1..]) == "07";
  }

  // ---------------------------------------------------------------------------------
  // Value rules
  // ---------------------------------------------------------------------------------

  /** Why loading the rules stopped: int() or boolean() raised, or the dependency check did. */
  datatype RuleError = InvalidInteger(text: string) | InvalidBoolean(text: string) | DependencyError(message: string)

  /** start_sequence and stop_sequence: a positive number is kept; zero, negative or absent gives 0. */
  function SequenceRule(value: Option<string>): (r: Result<int, RuleError>)
    ensures r.Success? ==> r.value >= 0
    ensures r.Failure? <==> Truthy(value) && ParseInt(value.value).None?
    ensures r.Success? && r.value > 0 <==>
              Truthy(value) && ParseInt(value.value).Some? && ParseInt(value.value).value > 0
    ensures r.Success? && r.value > 0 ==> r.value == ParseInt(value.value).value
    ensures !Truthy(value) ==> r == Success(0)
    ensures (Truthy(value) && ParseInt(value.value).Some? && ParseInt(value.value).value <= 0) ==> r == Success(0)
  {
    if Truthy(value) then
      match ParseInt(value.value)
      case None => Failure(InvalidInteger(value.value))
      case Some(n) => Success(if n > 0 then n else 0)
    else Success(0)
  }

  /** expected_loading: a number in 0..100 is kept; any other number, or none, gives 1. */
  function LoadingRule(value: Option<string>): (r: Result<int, RuleError>)
    ensures r.Success? ==> 0 <= r.value <= 100
    ensures r.Failure? <==> Truthy(value) && ParseInt(value.value).None?
    ensures !Truthy(value) ==> r == Success(1)
    ensures (Truthy(value) && ParseInt(value.value).Some? && 0 <= ParseInt(value.value).value <= 100)
              ==> r == Success(ParseInt(value.value).value)
    ensures (Truthy(value) && ParseInt(value.value).Some? && !(0 <= ParseInt(value.value).value <= 100))
              ==> r == Success(1)
  {
    if Truthy(value) then
      match ParseInt(value.value)
      case None => Failure(InvalidInteger(value.value))
      case Some(n) => Success(if 0 <= n <= 100 then n else 1)
    else Success(1)
  }

  /** The sequence rule on the text of a written number. */
  lemma SequenceRuleOfNumber(n: int)
    ensures SequenceRule(Some(Decimal(n))) == Success(if n > 0 then n else 0)
  {
    ParseIntOfDecimal(n);
    DigitsValueOfDigits(if n < 0 then -n else n);
  }

  /** The loading rule on the text of a written number. */
  lemma LoadingRuleOfNumber(n: int)
    ensures LoadingRule(Some(Decimal(n))) == Success(if 0 <= n <= 100 then n else 1)
  {
    ParseIntOfDecimal(n);
    DigitsValueOfDigits(if n < 0 then -n else n);
  }

  /** required and wait_exit: false when absent or empty, else the conversion of boolean(). */
  function FlagRule(value: Option<string>, boolean: string -> Option<bool>): (r: Result<bool, RuleError>)
    ensures !Truthy(value) ==> r == Success(false)
    ensures Truthy(value) ==> (r.Failure? <==> boolean(value.value).None?)
    ensures Truthy(value) && r.Success? ==> Some(r.value) == boolean(value.value)
  {
    if Truthy(value) then
      match boolean(value.value)
      case None => Failure(InvalidBoolean(value.value))
      case Some(b) => Success(b)
    else Success(false)
  }

  // ---------------------------------------------------------------------------------
  // Addresses
  // ---------------------------------------------------------------------------------

  /** The position of the first occurrence of `x` in `xs`. */
  function FirstIndex(xs: seq<string>, x: string): (i: nat)
    requires x in xs
    ensures i < |xs| && xs[i] == x && x !in xs[..i]
  {
    if xs[0] == x then 0 else 1 + FirstIndex(xs[1..], x)
  }

  /** filter(None, entries): the entries that are not empty. */
  function NonEmpty(entries: seq<string>): (r: seq<string>)
    ensures forall x :: x in r <==> x in entries && x != ""
  {
    if entries == [] then []
    else NonEmpty(entries[..|entries| - 1]) + (if entries[|entries| - 1] == "" then [] else [entries[|entries| - 1]])
  }

  /** OrderedDict.fromkeys(entries): each entry once, where it first occurs. */
  function Dedup(entries: seq<string>): (r: seq<string>)
    ensures NoDuplicates(r)
    ensures forall x :: x in r <==> x in entries
  {
    if entries == [] then []
    else
      var init := entries[..|entries| - 1];
      Dedup(init) + (if entries[|entries| - 1] in init then [] else [entries[|entries| - 1]])
  }

  /** The entries of an addresses element once empty ones and repeats are dropped. */
  function NormalizedAddresses(entries: seq<string>): seq<string>
  {
    Dedup(NonEmpty(entries))
  }

  lemma FirstIndexOfPrefix(xs: seq<string>, y: string, x: string)
    requires x in xs
    ensures FirstIndex(xs + [y], x) == FirstIndex(xs, x)
  {
    if xs[0] != x {
      assert (xs + [y])[1..] == xs[1..] + [y];
      FirstIndexOfPrefix(xs[1..], y, x);
    }
  }

  /**
    The normalised addresses are the non-empty entries, each once, in the order of
    their first occurrence; nothing is sorted.
   */
  lemma {:induction false} NormalizedAddressesOrder(entries: seq<string>)
    ensures var r := NormalizedAddresses(entries);
      && NoDuplicates(r)
      && (forall x :: x in r <==> x in entries && x != "")
      && (forall i, j :: 0 <= i < j < |r| ==> FirstIndex(entries, r[i]) < FirstIndex(entries, r[j]))
  {
    if entries != [] {
      var init, y := entries[..|entries| - 1], entries[|entries| - 1];
      assert entries == init + [y];
      NormalizedAddressesOrder(init);
      var r0 := NormalizedAddresses(init);
      var ne := NonEmpty(init);
      assert NonEmpty(entries) == ne + (if y == "" then [] else [y]);
      var r := NormalizedAddresses(entries);
      if y == "" {
        assert NonEmpty(entries) == ne;
      } else {
        assert NonEmpty(entries)[..|NonEmpty(entries)| - 1] == ne;
        assert r == r0 + (if y in ne then [] else [y]);
      }
      assert r == r0 || (y != "" && y !in init && r == r0 + [y]);
      forall i, j | 0 <= i < j < |r|
        ensures FirstIndex(entries, r[i]) < FirstIndex(entries, r[j])
      {
        FirstIndexOfPrefix(init, y, r[i]);
        if j < |r0| {
          FirstIndexOfPrefix(init, y, r[j]);
        } else {
          assert r[j] == y && y !in init;
        }
      }
    }
  }

  /** The addresses rule: `*` among the entries makes the wildcard alone, else the filtered entries. */
  function AddressesRule(entries: seq<string>, filter: seq<string> -> seq<string>): (r: seq<string>)
    ensures "*" in entries ==> r == ["*"]
    ensures "*" !in entries ==> r == filter(NormalizedAddresses(entries))
  {
    var addresses := NormalizedAddresses(entries);
    if "*" in addresses then ["*"] else filter(addresses)
  }

  // ---------------------------------------------------------------------------------
  // The deployment file
  // ---------------------------------------------------------------------------------

  /** An element, seen through findtext: the text of its first child of each tag ("" when the child is empty). */
  datatype Element = Element(texts: map<string, string>)

  function FindText(e: Element, tag: string): Option<string>
  {
    if tag in e.texts then Some(e.texts[tag]) else None
  }

  datatype Pattern = Pattern(name: string, element: Element)

  datatype ApplicationElement = ApplicationElement(element: Element, programs: map<string, Element>)

  /**
    The parsed deployment file: the application elements by name (with their program
    elements by name), the model elements by name, and every pattern element in the
    iteration order of the pattern table.
   */
  datatype Deployment = Deployment(applications: map<string, ApplicationElement>,
                                   models: map<string, Element>,
                                   patterns: seq<Pattern>)

  /** The identity of a process: its application, its own name and the namespec made of both. */
  datatype ProcessId = ProcessId(applicationName: string, processName: string, namespec: string)

  /** `name in namespec` on strings: `name` starts at some position of `namespec`. */
  predicate IsSubstring(name: string, namespec: string)
  {
    name <= namespec || (namespec != [] && IsSubstring(name, namespec[1..]))
  }

  /** The patterns whose name occurs in the namespec, in table order. */
  function Matching(patterns: seq<Pattern>, namespec: string): (r: seq<Pattern>)
    ensures forall p :: p in r <==> p in patterns && IsSubstring(p.name, namespec)
  {
    if patterns == [] then []
    else (if IsSubstring(patterns[0].name, namespec) then [patterns[0]] else []) + Matching(patterns[1..], namespec)
  }

  /** max(names, key=len): the first of the longest names. */
  function LongestIndex(ps: seq<Pattern>): (k: nat)
    requires ps != []
    ensures k < |ps|
    ensures forall i :: 0 <= i < |ps| ==> |ps[i].name| <= |ps[k].name|
    ensures forall i :: 0 <= i < k ==> |ps[i].name| < |ps[k].name|
  {
    if |ps| == 1 then 0
    else
      var k := LongestIndex(ps[1..]) + 1;
      if |ps[0].name| >= |ps[k].name| then 0 else k
  }

  /** The pattern chosen for a namespec: one of maximal length among those whose name it contains. */
  function ChosenPattern(patterns: seq<Pattern>, namespec: string): (r: Option<Pattern>)
    ensures r.None? <==> forall p :: p in patterns ==> !IsSubstring(p.name, namespec)
    ensures r.Some? ==> r.value in patterns && IsSubstring(r.value.name, namespec)
    ensures r.Some? ==> forall p :: p in patterns && IsSubstring(p.name, namespec) ==> |p.name| <= |r.value.name|
  {
    var matching := Matching(patterns, namespec);
    if matching == [] then None
    else
      var k := LongestIndex(matching);
      assert forall p :: p in matching ==> |p.name| <= |matching[k].name|;
      Some(matching[k])
  }

  /** The program element named directly under the application element. */
  function DirectProgram(d: Deployment, id: ProcessId): (r: Option<Element>)
    ensures r.Some? <==>
              id.applicationName in d.applications && id.processName in d.applications[id.applicationName].programs
    ensures r.Some? ==> r.value in d.applications[id.applicationName].programs.Values
  {
    if id.applicationName in d.applications && id.processName in d.applications[id.applicationName].programs
    then Some(d.applications[id.applicationName].programs[id.processName])
    else None
  }

  /** A `reference` naming a known model stands for that model; otherwise the element stands for itself. */
  function ResolveReference(d: Deployment, e: Element): (r: Element)
    ensures r == e || r in d.models.Values
    ensures (FindText(e, "reference").Some? && FindText(e, "reference").value in d.models)
              ==> r == d.models[FindText(e, "reference").value]
    ensures (FindText(e, "reference").None? || FindText(e, "reference").value !in d.models) ==> r == e
  {
    var model := FindText(e, "reference");
    if model.Some? && model.value in d.models then d.models[model.value] else e
  }

  /**
    The program element of a process: the direct one, else the element of the longest
    matching pattern, then replaced by its referenced model; None when neither exists.
   */
  function GetProgramElement(d: Deployment, id: ProcessId): (r: Option<Element>)
    ensures r.None? <==>
              DirectProgram(d, id).None? && forall p :: p in d.patterns ==> !IsSubstring(p.name, id.namespec)
    ensures DirectProgram(d, id).Some? ==> r == Some(ResolveReference(d, DirectProgram(d, id).value))
    ensures DirectProgram(d, id).None? && r.Some? ==>
              exists p :: p in d.patterns && IsSubstring(p.name, id.namespec) && r.value == ResolveReference(d, p.element)
                && forall q :: q in d.patterns && IsSubstring(q.name, id.namespec) ==> |q.name| <= |p.name|
  {
    var direct := DirectProgram(d, id);
    var found :=
      if direct.Some? then direct
      else
        match ChosenPattern(d.patterns, id.namespec)
        case None => None
        case Some(p) => Some(p.element);
    if found.Some? then Some(ResolveReference(d, found.value)) else None
  }

  // ---------------------------------------------------------------------------------
  // Loading the rules into the rule objects
  // ---------------------------------------------------------------------------------

  /** The functions of the process supervisor and of the cluster this parser calls into. */
  datatype Externals = Externals(
    boolean: string -> Option<bool>,
    listOfStrings: string -> seq<string>,
    filter: seq<string> -> seq<string>,
    checkDependencies: (RulesValue, string) -> Option<string>)

  /** The fields of a ProcessRules object, as a value. */
  datatype RulesValue = RulesValue(addresses: seq<string>, startSequence: int, stopSequence: int,
                                   required: bool, waitExit: bool, expectedLoading: int)

  /** The addresses a program element leaves: unchanged without (or with an empty) addresses text. */
  function AddressesStep(elt: Element, current: seq<string>, ext: Externals): (r: seq<string>)
    ensures !Truthy(FindText(elt, "addresses")) ==> r == current
    ensures Truthy(FindText(elt, "addresses")) && "*" in ext.listOfStrings(FindText(elt, "addresses").value) ==>
              r == ["*"]
    ensures Truthy(FindText(elt, "addresses")) && "*" !in ext.listOfStrings(FindText(elt, "addresses").value) ==>
              r == ext.filter(NormalizedAddresses(ext.listOfStrings(FindText(elt, "addresses").value)))
  {
    var value := FindText(elt, "addresses");
    if Truthy(value) then AddressesRule(ext.listOfStrings(value.value), ext.filter) else current
  }

  /**
    The rules after load_process_rules has read a program element, and whether it
    raised: fields are assigned one after the other, so a step that raises leaves the
    fields it had not reached as they were.
   */
  function LoadedProcessRules(r: RulesValue, elt: Element, ext: Externals, namespec: string)
    : (res: (RulesValue, Outcome<RuleError>))
    ensures res.0.addresses == AddressesStep(elt, r.addresses, ext)
    ensures res.1.Pass? ==> res.0.startSequence >= 0 && res.0.stopSequence >= 0
    ensures res.1.Pass? ==> 0 <= res.0.expectedLoading <= 100
    ensures res.1.Pass? && !Truthy(FindText(elt, "required")) ==> !res.0.required
    ensures res.1.Pass? && !Truthy(FindText(elt, "wait_exit")) ==> !res.0.waitExit
    ensures var a := AddressesStep(elt, r.addresses, ext);
            var start := SequenceRule(FindText(elt, "start_sequence"));
            var stop := SequenceRule(FindText(elt, "stop_sequence"));
            var required := FlagRule(FindText(elt, "required"), ext.boolean);
            var waitExit := FlagRule(FindText(elt, "wait_exit"), ext.boolean);
            var loading := LoadingRule(FindText(elt, "expected_loading"));
            && (start.Failure? ==> res == (r.(addresses := a), Fail(start.error)))
            && (start.Success? && stop.Failure? ==>
                  res == (r.(addresses := a, startSequence := start.value), Fail(stop.error)))
            && (start.Success? && stop.Success? && required.Failure? ==>
                  res == (r.(addresses := a, startSequence := start.value, stopSequence := stop.value), Fail(required.error)))
            && (start.Success? && stop.Success? && required.Success? && waitExit.Failure? ==>
                  res == (r.(addresses := a, startSequence := start.value, stopSequence := stop.value,
                             required := required.value), Fail(waitExit.error)))
            && (start.Success? && stop.Success? && required.Success? && waitExit.Success? && loading.Failure? ==>
                  res == (r.(addresses := a, startSequence := start.value, stopSequence := stop.value,
                             required := required.value, waitExit := waitExit.value), Fail(loading.error)))
            && (start.Success? && stop.Success? && required.Success? && waitExit.Success? && loading.Success? ==>
                  res.0 == RulesValue(a, start.value, stop.value, required.value, waitExit.value, loading.value)
                  && res.1 == (match ext.checkDependencies(res.0, namespec)
                               case Some(message) => Fail(DependencyError(message))
                               case None => Pass))
            && (res.1.Pass? <==>
                  start.Success? && stop.Success? && required.Success? && waitExit.Success? && loading.Success?
                  && ext.checkDependencies(res.0, namespec).None?)
  {
    var r1 := r.(addresses := AddressesStep(elt, r.addresses, ext));
    match SequenceRule(FindText(elt, "start_sequence"))
    case Failure(e) => (r1, Fail(e))
    case Success(start) =>
      var r2 := r1.(startSequence := start);
      match SequenceRule(FindText(elt, "stop_sequence"))
      case Failure(e) => (r2, Fail(e))
      case Success(stop) =>
        var r3 := r2.(stopSequence := stop);
        match FlagRule(FindText(elt, "required"), ext.boolean)
        case Failure(e) => (r3, Fail(e))
        case Success(required) =>
          var r4 := r3.(required := required);
          match FlagRule(FindText(elt, "wait_exit"), ext.boolean)
          case Failure(e) => (r4, Fail(e))
          case Success(waitExit) =>
            var r5 := r4.(waitExit := waitExit);
            match LoadingRule(FindText(elt, "expected_loading"))
            case Failure(e) => (r5, Fail(e))
            case Success(loading) =>
              var r6 := r5.(expectedLoading := loading);
              match ext.checkDependencies(r6, namespec)
              case Some(message) => (r6, Fail(DependencyError(message)))
              case None => (r6, Pass)
  }

  /** The deployment rules of one process. */
  class ProcessRules {
    var addresses: seq<string>
    var startSequence: int
    var stopSequence: int
    var required: bool
    var waitExit: bool
    var expectedLoading: int

    constructor (value: RulesValue)
      ensures Value() == value
    {
      addresses, startSequence, stopSequence := value.addresses, value.startSequence, value.stopSequence;
      required, waitExit, expectedLoading := value.required, value.waitExit, value.expectedLoading;
    }

    function Value(): RulesValue
      reads this
    {
      RulesValue(addresses, startSequence, stopSequence, required, waitExit, expectedLoading)
    }
  }

  /** Sets the addresses of the rules from the addresses text of a program element, if any. */
  method GetProgramAddresses(elt: Element, rules: ProcessRules, ext: Externals)
    modifies rules`addresses
    ensures !Truthy(FindText(elt, "addresses")) ==> rules.addresses == old(rules.addresses)
    ensures Truthy(FindText(elt, "addresses")) ==>
              rules.addresses == AddressesRule(ext.listOfStrings(FindText(elt, "addresses").value), ext.filter)
  {
    var value := FindText(elt, "addresses");
    if Truthy(value) {
      var addresses := NormalizedAddresses(ext.listOfStrings(value.value));
      rules.addresses := if "*" in addresses then ["*"] else ext.filter(addresses);
    }
  }

  /** Reads the rules of a process from its program element; rules stay as they are when there is none. */
  method LoadProcessRules(d: Deployment, id: ProcessId, rules: ProcessRules, ext: Externals)
    returns (outcome: Outcome<RuleError>)
    modifies rules
    ensures GetProgramElement(d, id).None? ==> rules.Value() == old(rules.Value()) && outcome == Pass
    ensures GetProgramElement(d, id).Some? ==>
              (rules.Value(), outcome) == LoadedProcessRules(old(rules.Value()), GetProgramElement(d, id).value, ext, id.namespec)
  {
    var programElt := GetProgramElement(d, id);
    outcome := Pass;
    if programElt.Some? {
      outcome := LoadProgramRules(programElt.value, rules, ext, id.namespec);
    }
  }

  /** The body of load_process_rules once a program element is found: one field after the other. */
  method LoadProgramRules(elt: Element, rules: ProcessRules, ext: Externals, namespec: string)
    returns (outcome: Outcome<RuleError>)
    modifies rules
    ensures (rules.Value(), outcome) == LoadedProcessRules(old(rules.Value()), elt, ext, namespec)
  {
    GetProgramAddresses(elt, rules, ext);
    var start := SequenceRule(FindText(elt, "start_sequence"));
    if start.Failure? {
      return Fail(start.error);
    }
    rules.startSequence := start.value;
    var stop := SequenceRule(FindText(elt, "stop_sequence"));
    if stop.Failure? {
      return Fail(stop.error);
    }
    rules.stopSequence := stop.value;
    var required := FlagRule(FindText(elt, "required"), ext.boolean);
    if required.Failure? {
      return Fail(required.error);
    }
    rules.required := required.value;
    var waitExit := FlagRule(FindText(elt, "wait_exit"), ext.boolean);
    if waitExit.Failure? {
      return Fail(waitExit.error);
    }
    rules.waitExit := waitExit.value;
    var loading := LoadingRule(FindText(elt, "expected_loading"));
    if loading.Failure? {
      return Fail(loading.error);
    }
    rules.expectedLoading := loading.value;
    var dependencies := ext.checkDependencies(rules.Value(), namespec);
    if dependencies.Some? {
      return Fail(DependencyError(dependencies.value));
    }
    return Pass;
  }

  /** Reads the start and stop ranks of an application from its application element, if there is one. */
  method LoadApplicationRules(d: Deployment, application: Application.ApplicationStatus)
    returns (outcome: Outcome<RuleError>)
    modifies application.rules
    ensures application.rules.autostart == old(application.rules.autostart)
    ensures application.rules.sequence == old(application.rules.sequence)
    ensures application.rules.startingFailureStrategy == old(application.rules.startingFailureStrategy)
    ensures application.rules.runningFailureStrategy == old(application.rules.runningFailureStrategy)
    ensures application.applicationName !in d.applications ==>
              outcome == Pass && unchanged(application.rules)
    ensures application.applicationName in d.applications ==>
              var elt := d.applications[application.applicationName].element;
              var start := SequenceRule(FindText(elt, "start_sequence"));
              var stop := SequenceRule(FindText(elt, "stop_sequence"));
              && (start.Failure? ==> outcome == Fail(start.error) && unchanged(application.rules))
              && (start.Success? ==> application.rules.startSequence == Some(start.value))
              && (start.Success? && stop.Failure? ==>
                    outcome == Fail(stop.error) && application.rules.stopSequence == old(application.rules.stopSequence))
              && (start.Success? && stop.Success? ==>
                    outcome == Pass && application.rules.stopSequence == Some(stop.value))
  {
    outcome := Pass;
    if application.applicationName in d.applications {
      var elt := d.applications[application.applicationName].element;
      var start := SequenceRule(FindText(elt, "start_sequence"));
      if start.Failure? {
        return Fail(start.error);
      }
      application.rules.startSequence := Some(start.value);
      var stop := SequenceRule(FindText(elt, "stop_sequence"));
      if stop.Failure? {
        return Fail(stop.error);
      }
      application.rules.stopSequence := Some(stop.value);
    }
  }
}
