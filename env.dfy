/** src/env/env.go: environment variables, read once and rendered as `NAME=VALUE`, with a
    secure kind whose rendering hides the value. The process environment that `os.Getenv`
    reads is a parameter: a map from names to values, where an unset name reads as "". */
module Env {
  import opened Base

  type Environ = map<GoString, GoString>

  /** The byte `=`. */
  const Equals: byte := 0x3D

  /** The six asterisks the secure kind prints instead of the value. */
  const Mask: GoString := Ascii("******")

  /** `env` (`Plain`) and `secureEnv` (`Secure`), which share their two fields. */
  datatype Env = Plain(name: GoString, value: GoString) | Secure(name: GoString, value: GoString) {

    /** `String`: the `%s=%s` rendering, or `%s=******` for the secure kind. */
    function String(): (s: GoString)
      ensures Plain? ==> s == name + [Equals] + value
      ensures Secure? ==> s == name + [Equals] + Mask
    {
      match this
      case Plain(n, v) => n + [Equals] + v
      case Secure(n, _) => n + [Equals] + Mask
    }

    /** `Name`. */
    function Name(): GoString { name }

    /** `Value`. */
    function Value(): GoString { value }
  }

  /** `os.Getenv`. */
  function Getenv(environ: Environ, name: GoString): (v: GoString)
    ensures name in environ ==> v == environ[name]
    ensures name !in environ ==> v == []
  {
    if name in environ then environ[name] else []
  }

  /** `Get` (and `get`). */
  function Get(environ: Environ, name: GoString): (e: Env)
    ensures e.Plain?
    ensures e.Name() == name && e.Value() == Getenv(environ, name)
  {
    Plain(name, Getenv(environ, name))
  }

  /** `GetSecure`: the fields `get` read, converted to the secure kind. */
  function GetSecure(environ: Environ, name: GoString): (e: Env)
    ensures e.Secure?
    ensures e.Name() == Get(environ, name).Name() && e.Value() == Get(environ, name).Value()
  {
    var p := Get(environ, name);
    Secure(p.name, p.value)
  }

  /** The position of the first `=` in `s`, or `|s|` when there is none. */
  function FirstEquals(s: GoString): (k: nat)
    ensures k <= |s|
    ensures forall i | 0 <= i < k :: s[i] != Equals
    ensures k < |s| ==> s[k] == Equals
  {
    if |s| == 0 then 0
    else if s[0] == Equals then 0
    else 1 + FirstEquals(s[1..])
  }

  /** Reading a rendering back: the text before the first `=`, and the text after it. */
  function Split(s: GoString): (GoString, GoString)
  {
    var k := FirstEquals(s);
    if k < |s| then (s[..k], s[k + 1..]) else (s, [])
  }

  /** For a name without `=`, the first `=` of `name + "=" + rest` is the one after the name. */
  lemma {:induction false} FirstEqualsAfterName(name: GoString, rest: GoString)
    requires Equals !in name
    ensures FirstEquals(name + [Equals] + rest) == |name|
  {
    if |name| == 0 {
      assert (name + [Equals] + rest)[0] == Equals;
    } else {
      assert (name + [Equals] + rest)[1..] == name[1..] + [Equals] + rest;
      FirstEqualsAfterName(name[1..], rest);
    }
  }

  /** A plain variable's rendering gives back its name and value, whatever the value holds:
      the name and the value both appear, in that order. */
  lemma PlainStringRoundTrip(name: GoString, value: GoString)
    requires Equals !in name
    ensures Split(Plain(name, value).String()) == (name, value)
  {
    FirstEqualsAfterName(name, value);
    var s := name + [Equals] + value;
    assert s[..|name|] == name;
    assert s[|name| + 1..] == value;
  }

  /** A secure variable's rendering gives back its name and the mask, never the value, and is
      the same for every value. */
  lemma SecureStringHidesValue(name: GoString, v1: GoString, v2: GoString)
    requires Equals !in name
    ensures Split(Secure(name, v1).String()) == (name, Mask)
    ensures Secure(name, v1).String() == Secure(name, v2).String()
  {
    PlainStringRoundTrip(name, Mask);
  }

  /** `Get` and `GetSecure` of the same name differ only in how they render, and only the
      secure rendering hides the value. */
  lemma GetAndGetSecureAgree(environ: Environ, name: GoString)
    requires Equals !in name
    ensures Get(environ, name).Name() == GetSecure(environ, name).Name() == name
    ensures Get(environ, name).Value() == GetSecure(environ, name).Value() == Getenv(environ, name)
    ensures Split(Get(environ, name).String()).1 == Getenv(environ, name)
    ensures Split(GetSecure(environ, name).String()).1 == Mask
  {
    PlainStringRoundTrip(name, Getenv(environ, name));
    SecureStringHidesValue(name, Getenv(environ, name), []);
  }
}
