/** The file name `getScriptFile` gives a materialized script: a fixed
    prefix, the hex MD5 digest of the script, a microsecond timestamp and
    eight random characters, with the `.sh` extension. The digest, the clock
    reading and the random draws are inputs. */
module ScriptName {
  import opened Options
  import opened Text

  const Prefix := "_cmd_exec_run_shell_script_md5"
  const Extension := ".sh"

  /** The alphabet the random suffix is drawn from. */
  const Chars := "0123456789abcdefghijklmnopqrstuvwxyz"

  /** An MD5 digest: 16 bytes. */
  type Digest = d: seq<byte> | |d| == 16 witness seq(16, _ => 0)

  /** One result of `rand.Intn(len(Chars))`. */
  type Draw = k: int | 0 <= k < 36

  /** The eight draws that pick the suffix characters. */
  type Draws = s: seq<Draw> | |s| == 8 witness seq(8, _ => 0)

  /** Everything the name is made from. */
  datatype Stamp = Stamp(digest: Digest, micros: int, draws: Draws)

  /** `Chars` is the ten decimal digits followed by the 26 lower-case letters,
      each in code-point order. */
  lemma CharsAt(k: int)
    requires 0 <= k < 36
    ensures k < 10 ==> Chars[k] == ('0' as int + k) as char
    ensures k >= 10 ==> Chars[k] == ('a' as int + k - 10) as char
  {
    assert Chars == "0123456789" + "abcdefghijklmnopqrstuvwxyz";
    if k < 10 {
      assert Chars[k] == "0123456789"[k];
    } else {
      assert Chars[k] == "abcdefghijklmnopqrstuvwxyz"[k - 10];
    }
  }

  /** The position of a character in `Chars`, if it is there. */
  function CharIndex(ch: char): (r: Option<Draw>)
    ensures r.Some? ==> Chars[r.value] == ch
    ensures r.None? ==> ch !in Chars
  {
    if '0' <= ch <= '9' then
      CharsAt(ch as int - '0' as int);
      Some(ch as int - '0' as int)
    else if 'a' <= ch <= 'z' then
      CharsAt(ch as int - 'a' as int + 10);
      Some(ch as int - 'a' as int + 10)
    else
      assert forall k :: 0 <= k < 36 ==> Chars[k] != ch by {
        forall k | 0 <= k < 36 ensures Chars[k] != ch { CharsAt(k); }
      }
      None
  }

  /** The random suffix: each draw picks one character of `Chars`. */
  function RandomSuffix(draws: Draws): (s: string)
    ensures |s| == 8
    ensures forall i :: 0 <= i < 8 ==> s[i] in Chars && CharIndex(s[i]) == Some(draws[i])
  {
    seq(8, i requires 0 <= i < 8 => Chars[draws[i]])
  }

  function ParseSuffix(s: string): Option<seq<Draw>>
  {
    if |s| == 0 then Some([])
    else match (CharIndex(s[0]), ParseSuffix(s[1..]))
      case (Some(k), Some(rest)) => Some([k] + rest)
      case _ => None
  }

  lemma {:induction false} ParseSuffixReads(s: string, draws: seq<Draw>)
    requires |s| == |draws|
    requires forall i :: 0 <= i < |s| ==> CharIndex(s[i]) == Some(draws[i])
    ensures ParseSuffix(s) == Some(draws)
  {
    if |s| > 0 {
      ParseSuffixReads(s[1..], draws[1..]);
      assert [draws[0]] + draws[1..] == draws;
    }
  }

  /** The base name of the script file. */
  function BaseName(st: Stamp): (name: string)
    ensures |name| == 75 + |Decimal(st.micros)|
    ensures name[..30] == Prefix
    ensures forall i :: 30 <= i < 62 ==> IsLowerHexDigit(name[i])
    ensures name[|name| - 3..] == Extension
    ensures forall i :: 0 <= i < |name| ==> name[i] != '/'
  {
    Prefix + HexEncode(st.digest) + "_" + Decimal(st.micros) + "_" + RandomSuffix(st.draws) + Extension
  }

  /** Reads the parts back out of a name laid out as `BaseName` lays it out. */
  function ParseBaseName(name: string): Option<Stamp>
  {
    if |name| < 75 || name[..30] != Prefix || name[62] != '_'
       || name[|name| - 12] != '_' || name[|name| - 3..] != Extension then None
    else
      match (HexDecode(name[30..62]), ParseDecimal(name[63..|name| - 12]), ParseSuffix(name[|name| - 11..|name| - 3]))
      case (Some(d), Some(t), Some(r)) =>
        if |d| == 16 && |r| == 8 then Some(Stamp(d, t, r)) else None
      case _ => None
  }

  /** Where each part of a name laid out like `BaseName` sits. */
  lemma LayoutSlices(p: string, h: string, d: string, sfx: string, e: string)
    requires |p| == 30 && |h| == 32 && |sfx| == 8 && |e| == 3
    ensures var name := p + h + "_" + d + "_" + sfx + e;
      var n := |name|;
      && n == 75 + |d|
      && name[..30] == p && name[30..62] == h && name[62] == '_'
      && name[63..n - 12] == d && name[n - 12] == '_'
      && name[n - 11..n - 3] == sfx && name[n - 3..] == e
  {
    var name := p + h + "_" + d + "_" + sfx + e;
    var n := |name|;
    assert name[..30] == p;
    assert name[30..62] == h;
    assert name[63..n - 12] == d;
    assert name[n - 11..n - 3] == sfx;
    assert name[n - 3..] == e;
  }

  /** A name laid out like `BaseName` reads back as the values its parts
      read back as. */
  lemma ParseLayout(h: string, d: string, sfx: string, st: Stamp)
    requires |h| == 32 && |sfx| == 8
    requires HexDecode(h) == Some(st.digest)
    requires ParseDecimal(d) == Some(st.micros)
    requires ParseSuffix(sfx) == Some(st.draws)
    ensures ParseBaseName(Prefix + h + "_" + d + "_" + sfx + Extension) == Some(st)
  {
    LayoutSlices(Prefix, h, d, sfx, Extension);
  }

  /** The name determines the digest, the timestamp and the draws: reading
      it back yields exactly what it was made from. */
  lemma BaseNameRoundTrip(st: Stamp)
    ensures ParseBaseName(BaseName(st)) == Some(st)
  {
    var sfx := RandomSuffix(st.draws);
    HexRoundTrip(st.digest);
    DecimalRoundTrip(st.micros);
    ParseSuffixReads(sfx, st.draws);
    ParseLayout(HexEncode(st.digest), Decimal(st.micros), sfx, st);
  }

  /** Two scripts get the same name only if they agree on digest, timestamp
      and every random draw. */
  lemma BaseNameInjective(a: Stamp, b: Stamp)
    requires BaseName(a) == BaseName(b)
    ensures a == b
  {
    BaseNameRoundTrip(a);
    BaseNameRoundTrip(b);
  }

}
