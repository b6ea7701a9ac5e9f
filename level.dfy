/** Log levels and the process-wide level registry (level.go). */
module Levels {

  /** `type Level int`: the model does not bound the integer. */
  type Level = int

  const DEBUG: Level := 0
  const INFO: Level := 1
  const WARN: Level := 2
  const ERROR: Level := 3

  /** The name `String` gives a value nobody registered. */
  const UnknownName := "UNKNOWN"

  /** The two registry maps, `levelNames` and `levelValues`. */
  datatype LevelTable = LevelTable(names: map<Level, string>, values: map<string, Level>)

  /** The table the package starts with: the four built-in levels. */
  function Builtins(): (t: LevelTable)
    ensures Consistent(t)
    ensures t.names.Keys == {DEBUG, INFO, WARN, ERROR}
  {
    LevelTable(
      map[DEBUG := "DEBUG", INFO := "INFO", WARN := "WARN", ERROR := "ERROR"],
      map["DEBUG" := DEBUG, "INFO" := INFO, "WARN" := WARN, "ERROR" := ERROR])
  }

  /** `Level.String`: the registered name, or "UNKNOWN". */
  function Name(t: LevelTable, l: Level): (r: string)
    ensures l in t.names ==> r == t.names[l]
    ensures l !in t.names ==> r == UnknownName
  {
    if l in t.names then t.names[l] else UnknownName
  }

  /** `ParseLevel`: look the upper-cased input up; INFO when it is not registered. */
  function Parse(t: LevelTable, s: string): (r: Level)
    ensures ToUpper(s) in t.values ==> r == t.values[ToUpper(s)]
    ensures r != INFO ==> ToUpper(s) in t.values
  {
    var key := ToUpper(s);
    if key in t.values then t.values[key] else INFO
  }

  predicate IsLowerLetter(c: char) { 'a' <= c <= 'z' }

  /** `unicode.ToUpper` restricted to ASCII. */
  function UpperChar(c: char): char
  {
    if IsLowerLetter(c) then (c as int - 32) as char else c
  }

  /** `strings.ToUpper`, on ASCII letters. */
  function ToUpper(s: string): (u: string)
    ensures |u| == |s|
    ensures forall i :: 0 <= i < |s| ==> u[i] == UpperChar(s[i])
  {
    if s == [] then [] else [UpperChar(s[0])] + ToUpper(s[1..])
  }

  /** A string with no lower-case ASCII letter. */
  predicate IsUpper(s: string)
  {
    forall i :: 0 <= i < |s| ==> !IsLowerLetter(s[i])
  }

  /** Every name the table gives parses back to its value, and every name is upper-case. */
  ghost predicate Consistent(t: LevelTable)
  {
    forall l :: l in t.names ==>
      t.names[l] in t.values && t.values[t.names[l]] == l && IsUpper(t.names[l])
  }

  /** `RegisterLevel` on the table: bind `v` to `name` and `name` to `v`, nothing else. */
  function Register(t: LevelTable, name: string, v: Level): (r: LevelTable)
    ensures Name(r, v) == name
    ensures forall l :: l != v ==> Name(r, l) == Name(t, l)
    ensures IsUpper(name) ==> Parse(r, name) == v
    ensures forall s :: ToUpper(s) != name ==> Parse(r, s) == Parse(t, s)
  {
    UpperIsFixed(name);
    LevelTable(t.names[v := name], t.values[name := v])
  }

  lemma UpperIsFixed(s: string)
    ensures IsUpper(s) ==> ToUpper(s) == s
  {
  }

  /** The result of ToUpper has no lower-case letter, so upper-casing twice is upper-casing once. */
  lemma ToUpperIsUpper(s: string)
    ensures IsUpper(ToUpper(s))
    ensures ToUpper(ToUpper(s)) == ToUpper(s)
  {
    UpperIsFixed(ToUpper(s));
  }

  /** Parsing upper-cases first: a string and its upper-case form parse alike. */
  lemma ParseIgnoresCase(t: LevelTable, s: string)
    ensures Parse(t, s) == Parse(t, ToUpper(s))
  {
    ToUpperIsUpper(s);
  }

  /** A name registered with a lower-case letter is never the key ParseLevel looks up. */
  lemma LowerCaseNameUnreachable(name: string, s: string)
    requires exists i :: 0 <= i < |name| && IsLowerLetter(name[i])
    ensures ToUpper(s) != name
  {
    ToUpperIsUpper(s);
  }

  /** An unregistered name parses to INFO. */
  lemma ParseDefaultsToInfo(t: LevelTable, s: string)
    requires ToUpper(s) !in t.values
    ensures Parse(t, s) == INFO
  {
  }

  /** In a consistent table, a registered value's name parses back to the value. */
  lemma RoundTrip(t: LevelTable, l: Level)
    requires Consistent(t) && l in t.names
    ensures Parse(t, Name(t, l)) == l
  {
    UpperIsFixed(t.names[l]);
  }

  /** Registering an upper-case name that is free, or already bound to the same value,
      keeps the table consistent; only then does the round trip survive registration. */
  lemma RegisterKeepsConsistent(t: LevelTable, name: string, v: Level)
    requires Consistent(t) && IsUpper(name)
    requires name in t.values ==> t.values[name] == v
    requires forall l :: l in t.names && t.names[l] == name ==> l == v
    ensures Consistent(Register(t, name, v))
  {
    var r := Register(t, name, v);
    forall l | l in r.names
      ensures r.names[l] in r.values && r.values[r.names[l]] == l && IsUpper(r.names[l])
    {
      if l != v {
        assert r.names[l] == t.names[l];
        assert t.names[l] != name;
      }
    }
  }

  /** The built-in levels are ordered DEBUG < INFO < WARN < ERROR and named after themselves. */
  lemma BuiltinOrder()
    ensures DEBUG < INFO < WARN < ERROR
    ensures Name(Builtins(), DEBUG) == "DEBUG" && Name(Builtins(), INFO) == "INFO"
    ensures Name(Builtins(), WARN) == "WARN" && Name(Builtins(), ERROR) == "ERROR"
    ensures Parse(Builtins(), "warn") == WARN
  {
    assert ToUpper("warn") == "WARN";
  }

  /** Re-binding a value to a new name leaves the old name parsing to that value:
      after RegisterLevel("NOTICE", INFO), String(INFO) is "NOTICE" yet "INFO" still parses to INFO. */
  lemma RebindKeepsOldName()
    ensures Name(Register(Builtins(), "NOTICE", INFO), INFO) == "NOTICE"
    ensures Parse(Register(Builtins(), "NOTICE", INFO), "INFO") == INFO
  {
    assert ToUpper("INFO") == "INFO";
  }

  /** Re-registering a built-in name at a new value breaks the round trip of the old value:
      after RegisterLevel("ERROR", 7), String(ERROR) is still "ERROR" but "ERROR" parses to 7. */
  lemma ReRegisterBreaksRoundTrip()
    ensures Name(Register(Builtins(), "ERROR", 7), ERROR) == "ERROR"
    ensures Parse(Register(Builtins(), "ERROR", 7), "ERROR") == 7
  {
    assert ToUpper("ERROR") == "ERROR";
  }

  /** A lower-case custom level prints under its name but parses to INFO. */
  lemma LowerCaseRegistrationNotParsed()
    ensures Name(Register(Builtins(), "notice", 10), 10) == "notice"
    ensures Parse(Register(Builtins(), "notice", 10), "notice") == INFO
  {
    assert ToUpper("notice") == "NOTICE";
  }

  /** The global registry: `levelNames` and `levelValues`, updated in place by RegisterLevel. */
  class Registry {
    var names: map<Level, string>
    var values: map<string, Level>

    function Table(): LevelTable
      reads this
    {
      LevelTable(names, values)
    }

    /** The package-level initial values of the two maps. */
    constructor ()
      ensures Table() == Builtins()
    {
      names := Builtins().names;
      values := Builtins().values;
    }

    /** `RegisterLevel(name, value)`: overwrite the two entries, keep every other one. */
    method RegisterLevel(name: string, value: Level)
      modifies this
      ensures names == old(names)[value := name]
      ensures values == old(values)[name := value]
      ensures Table() == Register(old(Table()), name, value)
    {
      names := names[value := name];
      values := values[name := value];
    }

    /** `Level.String` against the current registry. */
    function String(l: Level): (s: string)
      reads this
      ensures l in names ==> s == names[l]
      ensures l !in names ==> s == UnknownName
    {
      Name(Table(), l)
    }

    /** `ParseLevel` against the current registry. */
    function ParseLevel(s: string): (l: Level)
      reads this
      ensures ToUpper(s) in values ==> l == values[ToUpper(s)]
      ensures ToUpper(s) !in values ==> l == INFO
    {
      Parse(Table(), s)
    }
  }
}
