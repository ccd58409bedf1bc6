/** The error value of cmd.go: `CmdError` bundles the command's identity,
    its captured output and the underlying failure, and renders all of them
    in its `Error()` text. */
module CmdErrors {

  /** A non-nil Go `error`. Errors other than `CmdError` are opaque to the
      executor beyond the text their `Error()` method returns. */
  datatype Error =
    | Failure(message: string)
    | CmdErr(cmd: CmdError)

  datatype CmdError = CmdError(
    name: string,
    args: seq<string>,
    stdout: string,
    stderr: string,
    err: Error)

  /** The parts of the rendered error text, in the order they are written. */
  datatype Key = Name | Args | Stdout | Stderr | Err

  /** One `key=value` part of the rendered error text. */
  datatype Field = Field(key: Key, value: string)

  function Label(k: Key): string
  {
    match k
    case Name => "cmd"
    case Args => "args"
    case Stdout => "stdout"
    case Stderr => "stderr"
    case Err => "err"
  }

  function NewCmdError(name: string, args: seq<string>, stdout: string, stderr: string, err: Error): (c: CmdError)
    ensures c.name == name && c.args == args
    ensures c.stdout == stdout && c.stderr == stderr
    ensures Unwrap(c) == err
  {
    CmdError(name, args, stdout, stderr, err)
  }

  /** `errors.Unwrap` on a `CmdError`: the error whose text closes the
      `CmdError`'s own text. */
  function Unwrap(c: CmdError): (e: Error)
    ensures var text := Render(c);
      var tail := ", err=" + ErrorText(e);
      |tail| <= |text| && text[|text| - |tail|..] == tail
  {
    RenderFrame(c);
    c.err
  }

  /** Go's `%s` verb applied to a `[]string`: the elements separated by single
      spaces, inside square brackets. */
  function ArgsText(args: seq<string>): (r: string)
    ensures |r| >= 2 && r[0] == '[' && r[|r| - 1] == ']'
    ensures |args| == 0 ==> r == "[]"
    ensures |args| == 1 ==> r == "[" + args[0] + "]"
  {
    "[" + JoinWith(" ", args) + "]"
  }

  /** With two or more arguments, the first is followed by a single space and
      then by the text of the remaining arguments, bracket for bracket. */
  lemma ArgsTextCons(args: seq<string>)
    requires |args| >= 2
    ensures var rest := ArgsText(args[1..]);
      ArgsText(args) == "[" + args[0] + " " + rest[1..]
  {
    var j := JoinWith(" ", args[1..]);
    assert ArgsText(args[1..])[1..] == j + "]";
    calc {
      ArgsText(args);
      "[" + (args[0] + " " + j) + "]";
      { Associative("[" + args[0], " " + j, "]"); }
      "[" + args[0] + " " + (j + "]");
    }
  }

  function JoinWith(sep: string, xs: seq<string>): string
  {
    if |xs| == 0 then "" else if |xs| == 1 then xs[0] else xs[0] + sep + JoinWith(sep, xs[1..])
  }

  /** The `Error()` method of any error. */
  function ErrorText(e: Error): string
    decreases e, 2
  {
    match e
    case Failure(message) => message
    case CmdErr(c) => Render(c)
  }

  /** The fields a `CmdError` shows: the command name always, the arguments
      and the two captured streams only when they are non-empty, and the
      underlying error always, last. */
  function Fields(c: CmdError): seq<Field>
    decreases c, 0
  {
    [Field(Name, c.name)]
    + (if |c.args| > 0 then [Field(Args, ArgsText(c.args))] else [])
    + (if |c.stdout| > 0 then [Field(Stdout, c.stdout)] else [])
    + (if |c.stderr| > 0 then [Field(Stderr, c.stderr)] else [])
    + [Field(Err, ErrorText(c.err))]
  }

  function FieldText(f: Field): string
  {
    Label(f.key) + "=" + f.value
  }

  /** The fields written out in order, separated by `", "`. */
  function JoinFields(fs: seq<Field>): string
  {
    if |fs| == 0 then ""
    else if |fs| == 1 then FieldText(fs[0])
    else JoinFields(fs[..|fs| - 1]) + ", " + FieldText(fs[|fs| - 1])
  }

  /** `CmdError.Error()`. */
  function Render(c: CmdError): string
    decreases c, 1
  {
    JoinFields(Fields(c))
  }

  /** The position of each key in the fixed field order. */
  function Rank(key: Key): int
  {
    match key
    case Name => 0
    case Args => 1
    case Stdout => 2
    case Stderr => 3
    case Err => 4
  }

  predicate HasKey(fs: seq<Field>, key: Key)
  {
    exists i :: 0 <= i < |fs| && fs[i].key == key
  }

  /** `CmdError.Error()` as the source writes it: successive writes into one
      buffer. The writes produce exactly the fields joined by `", "`. */
  method ErrorString(c: CmdError) returns (s: string)
    ensures s == Render(c)
  {
    var err := ErrorText(c.err);
    s := "cmd=";
    s := s + c.name;
    ghost var s0 := s;
    if |c.args| > 0 {
      s := s + ", args=" + ArgsText(c.args);
      Associative(s0, ", args=", ArgsText(c.args));
      LabelledLiterals(ArgsText(c.args));
    }
    assert s == s0 + Part(|c.args| > 0, Args, ArgsText(c.args));
    ghost var s1 := s;
    if |c.stdout| > 0 {
      s := s + ", stdout=";
      s := s + c.stdout;
      Associative(s1, ", stdout=", c.stdout);
      LabelledLiterals(c.stdout);
    }
    assert s == s1 + Part(|c.stdout| > 0, Stdout, c.stdout);
    ghost var s2 := s;
    if |c.stderr| > 0 {
      s := s + ", stderr=";
      s := s + c.stderr;
      Associative(s2, ", stderr=", c.stderr);
      LabelledLiterals(c.stderr);
    }
    assert s == s2 + Part(|c.stderr| > 0, Stderr, c.stderr);
    ghost var s3 := s;
    s := s + ", err=";
    s := s + err;
    Associative(s3, ", err=", err);
    LabelledLiterals(err);
    RenderLayout(c);
  }

  lemma Associative(a: string, b: string, c: string)
    ensures a + b + c == a + (b + c)
  {
  }

  lemma JoinFieldsSnoc(fs: seq<Field>, f: Field)
    requires |fs| > 0
    ensures JoinFields(fs + [f]) == JoinFields(fs) + ", " + FieldText(f)
  {
    assert (fs + [f])[..|fs|] == fs;
  }

  /** A field written after others: the separator, then the field. */
  function Labelled(key: Key, value: string): string
  {
    ", " + Label(key) + "=" + value
  }

  /** An optional field: written only when `present`. */
  function Part(present: bool, key: Key, value: string): string
  {
    if present then Labelled(key, value) else ""
  }

  lemma SeparatorAssociates(a: string, b: string, c: string)
    ensures a + ", " + (b + "=" + c) == a + (", " + b + "=" + c)
  {
  }

  lemma AppendField(fs: seq<Field>, key: Key, value: string)
    requires |fs| > 0
    ensures JoinFields(fs + [Field(key, value)]) == JoinFields(fs) + Labelled(key, value)
  {
    JoinFieldsSnoc(fs, Field(key, value));
    SeparatorAssociates(JoinFields(fs), Label(key), value);
  }

  lemma LabelledLiterals(v: string)
    ensures Labelled(Args, v) == ", args=" + v
    ensures Labelled(Stdout, v) == ", stdout=" + v
    ensures Labelled(Stderr, v) == ", stderr=" + v
    ensures Labelled(Err, v) == ", err=" + v
  {
  }

  /** The rendering spelled out part by part, in the order the source writes
      into its buffer. */
  lemma RenderLayout(c: CmdError)
    ensures Render(c) ==
      "cmd=" + c.name
      + Part(|c.args| > 0, Args, ArgsText(c.args))
      + Part(|c.stdout| > 0, Stdout, c.stdout)
      + Part(|c.stderr| > 0, Stderr, c.stderr)
      + Labelled(Err, ErrorText(c.err))
  {
    var f0 := [Field(Name, c.name)];
    var f1 := f0 + (if |c.args| > 0 then [Field(Args, ArgsText(c.args))] else []);
    var f2 := f1 + (if |c.stdout| > 0 then [Field(Stdout, c.stdout)] else []);
    var f3 := f2 + (if |c.stderr| > 0 then [Field(Stderr, c.stderr)] else []);
    assert Fields(c) == f3 + [Field(Err, ErrorText(c.err))];
    var s0 := "cmd=" + c.name;
    var s1 := s0 + Part(|c.args| > 0, Args, ArgsText(c.args));
    var s2 := s1 + Part(|c.stdout| > 0, Stdout, c.stdout);
    var s3 := s2 + Part(|c.stderr| > 0, Stderr, c.stderr);
    assert JoinFields(f0) == s0;
    if |c.args| > 0 {
      AppendField(f0, Args, ArgsText(c.args));
    } else {
      assert f1 == f0 && s1 == s0;
    }
    if |c.stdout| > 0 {
      AppendField(f1, Stdout, c.stdout);
    } else {
      assert f2 == f1 && s2 == s1;
    }
    if |c.stderr| > 0 {
      AppendField(f2, Stderr, c.stderr);
    } else {
      assert f3 == f2 && s3 == s2;
    }
    AppendField(f3, Err, ErrorText(c.err));
  }

  /** The rendering always begins with the command name and always ends with
      the underlying error's own text. */
  lemma RenderFrame(c: CmdError)
    ensures "cmd=" + c.name <= Render(c)
    ensures var tail := ", err=" + ErrorText(c.err);
      |tail| <= |Render(c)| && Render(c)[|Render(c)| - |tail|..] == tail
  {
    RenderLayout(c);
    LabelledLiterals(ErrorText(c.err));
    var head := "cmd=" + c.name;
    var a := Part(|c.args| > 0, Args, ArgsText(c.args));
    var b := Part(|c.stdout| > 0, Stdout, c.stdout);
    var d := Part(|c.stderr| > 0, Stderr, c.stderr);
    var tail := ", err=" + ErrorText(c.err);
    Associative(head, a, b);
    Associative(head, a + b, d);
    SplitThree(Render(c), head, a + b + d, tail);
  }

  lemma SplitThree(r: string, head: string, middle: string, tail: string)
    requires r == head + middle + tail
    ensures head <= r
    ensures |tail| <= |r| && r[|r| - |tail|..] == tail
  {
    assert r[..|head|] == head;
  }

  lemma HasKeyAppend(a: seq<Field>, b: seq<Field>, key: Key)
    ensures HasKey(a + b, key) <==> HasKey(a, key) || HasKey(b, key)
  {
    if HasKey(a + b, key) {
      var i :| 0 <= i < |a + b| && (a + b)[i].key == key;
      if i >= |a| {
        assert b[i - |a|].key == key;
      }
    }
    if HasKey(a, key) {
      var i :| 0 <= i < |a| && a[i].key == key;
      assert (a + b)[i].key == key;
    }
    if HasKey(b, key) {
      var i :| 0 <= i < |b| && b[i].key == key;
      assert (a + b)[|a| + i].key == key;
    }
  }

  /** Keys strictly increase in the fixed order from each field to the next. */
  predicate Ordered(fs: seq<Field>)
  {
    forall i :: 0 < i < |fs| ==> Rank(fs[i - 1].key) < Rank(fs[i].key)
  }

  lemma OrderedSnoc(fs: seq<Field>, f: Field)
    requires Ordered(fs) && |fs| > 0 && Rank(fs[|fs| - 1].key) < Rank(f.key)
    ensures Ordered(fs + [f])
  {
    forall i | 0 < i < |fs + [f]|
      ensures Rank((fs + [f])[i - 1].key) < Rank((fs + [f])[i].key)
    {
      if i < |fs| {
        assert (fs + [f])[i - 1] == fs[i - 1] && (fs + [f])[i] == fs[i];
      }
    }
  }

  /** `fs` followed by an optional field whose key ranks above `r`. */
  lemma OrderedOptional(fs: seq<Field>, r: int, present: bool, f: Field)
    requires Ordered(fs) && |fs| > 0 && Rank(fs[|fs| - 1].key) <= r < Rank(f.key)
    ensures var fs' := fs + (if present then [f] else []);
      Ordered(fs') && |fs'| > 0 && Rank(fs'[|fs'| - 1].key) <= Rank(f.key)
  {
    if present {
      OrderedSnoc(fs, f);
    } else {
      assert fs + [] == fs;
    }
  }

  /** The groups `Fields` concatenates: one per key, empty when the key is
      not shown. */
  lemma FieldsGroups(c: CmdError) returns (g0: seq<Field>, g1: seq<Field>, g2: seq<Field>, g3: seq<Field>, g4: seq<Field>)
    ensures Fields(c) == g0 + g1 + g2 + g3 + g4
    ensures g0 == [Field(Name, c.name)] && g4 == [Field(Err, ErrorText(c.err))]
    ensures g1 == (if |c.args| > 0 then [Field(Args, ArgsText(c.args))] else [])
    ensures g2 == (if |c.stdout| > 0 then [Field(Stdout, c.stdout)] else [])
    ensures g3 == (if |c.stderr| > 0 then [Field(Stderr, c.stderr)] else [])
  {
    g0 := [Field(Name, c.name)];
    g1 := if |c.args| > 0 then [Field(Args, ArgsText(c.args))] else [];
    g2 := if |c.stdout| > 0 then [Field(Stdout, c.stdout)] else [];
    g3 := if |c.stderr| > 0 then [Field(Stderr, c.stderr)] else [];
    g4 := [Field(Err, ErrorText(c.err))];
  }

  /** Each optional field is shown exactly when its value is non-empty, and
      the name and the error are always shown. */
  lemma FieldsPresence(c: CmdError)
    ensures HasKey(Fields(c), Name) && HasKey(Fields(c), Err)
    ensures HasKey(Fields(c), Args) <==> |c.args| > 0
    ensures HasKey(Fields(c), Stdout) <==> |c.stdout| > 0
    ensures HasKey(Fields(c), Stderr) <==> |c.stderr| > 0
  {
    var g0, g1, g2, g3, g4 := FieldsGroups(c);
    var fs := Fields(c);
    forall key: Key
      ensures HasKey(fs, key) <==>
        HasKey(g0, key) || HasKey(g1, key) || HasKey(g2, key) || HasKey(g3, key) || HasKey(g4, key)
    {
      HasKeyAppend(g0, g1, key);
      HasKeyAppend(g0 + g1, g2, key);
      HasKeyAppend(g0 + g1 + g2, g3, key);
      HasKeyAppend(g0 + g1 + g2 + g3, g4, key);
    }
    assert g0[0].key == Name && g4[0].key == Err;
    assert |c.args| > 0 ==> g1[0].key == Args;
    assert |c.stdout| > 0 ==> g2[0].key == Stdout;
    assert |c.stderr| > 0 ==> g3[0].key == Stderr;
  }

  /** The fields open with the name, close with the error, and keep the order
      name, args, stdout, stderr, err. */
  lemma FieldsOrder(c: CmdError)
    ensures Fields(c)[0] == Field(Name, c.name)
    ensures Fields(c)[|Fields(c)| - 1] == Field(Err, ErrorText(c.err))
    ensures Ordered(Fields(c))
  {
    var g0, g1, g2, g3, g4 := FieldsGroups(c);
    OrderedOptional(g0, 0, |c.args| > 0, Field(Args, ArgsText(c.args)));
    OrderedOptional(g0 + g1, 1, |c.stdout| > 0, Field(Stdout, c.stdout));
    OrderedOptional(g0 + g1 + g2, 2, |c.stderr| > 0, Field(Stderr, c.stderr));
    OrderedSnoc(g0 + g1 + g2 + g3, Field(Err, ErrorText(c.err)));
  }

  /** The length of the rendering: the labels `cmd=` and `, err=` always, the
      labels `, args=`, `, stdout=` and `, stderr=` where present, plus the
      values. */
  lemma RenderLength(c: CmdError)
    ensures |Render(c)| ==
      4 + |c.name|
      + (if |c.args| > 0 then 7 + |ArgsText(c.args)| else 0)
      + (if |c.stdout| > 0 then 9 + |c.stdout| else 0)
      + (if |c.stderr| > 0 then 9 + |c.stderr| else 0)
      + 6 + |ErrorText(c.err)|
  {
    RenderLayout(c);
  }

  /** The capacity `Error()` reserves before writing. */
  function GrowHint(c: CmdError): int
  {
    |c.stderr| + |c.stdout| + |ErrorText(c.err)| + |c.name| + 36
  }

  /** Without arguments the reserved capacity always suffices; only the
      rendering of the argument list can make the buffer grow again. */
  lemma GrowHintSuffices(c: CmdError)
    requires |c.args| == 0
    ensures |Render(c)| <= GrowHint(c)
  {
    RenderLength(c);
  }

}
