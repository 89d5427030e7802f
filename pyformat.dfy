/**
 * The part of Python's `str.format(**kw)` that button labels use: literal
 * text, `{{` and `}}` escapes, and `{name}` fields replaced by the display
 * form of `kw[name]`. The template is processed from left to right and the
 * first problem met raises: a lone brace or an unterminated field is a
 * ValueError, a positional field (`{}`, `{0}`) an IndexError because no
 * positional arguments are passed, and a name missing from `kw` a KeyError.
 * Fields with a format spec, a conversion, an attribute or an index are
 * outside this model and fail with UnsupportedField.
 */
module PyFormat {
  import opened PyTypes

  predicate IsBrace(c: char) { c == '{' || c == '}' }

  predicate NoBraces(s: string) { forall i :: 0 <= i < |s| ==> !IsBrace(s[i]) }

  /** A field name outside this model: it has a format spec, conversion, attribute or index. */
  predicate IsComplexField(name: string)
  {
    exists i | 0 <= i < |name| :: name[i] in {':', '!', '.', '['}
  }

  /** A field name that `kw` is searched for: not positional and not a complex field. */
  predicate IsKeywordField(name: string)
  {
    name != [] && !AllDigits(name) && !IsComplexField(name)
  }

  /** The length of the longest brace-free prefix of `s`. */
  function FieldLength(s: string): (n: nat)
    ensures n <= |s| && NoBraces(s[..n])
    ensures n < |s| ==> IsBrace(s[n])
    decreases |s|
  {
    if s == [] || IsBrace(s[0]) then 0 else 1 + FieldLength(s[1..])
  }

  /** What a field named `name` is replaced by. */
  function Field(name: string, kw: map<string, Value>): (r: Result<string>)
    ensures r.Err? && r.error.KeyError? ==> r.error.key == name && name !in kw
    ensures IsKeywordField(name) && name in kw ==> r == Ok(Display(kw[name]))
  {
    if name == [] || AllDigits(name) then Err(IndexError)
    else if IsComplexField(name) then Err(UnsupportedField(name))
    else if name in kw then Ok(Display(kw[name]))
    else Err(KeyError(name))
  }

  function Prepend(s: string, r: Result<string>): Result<string>
  {
    match r
    case Ok(t) => Ok(s + t)
    case Err(e) => Err(e)
  }

  /** `template.format(**kw)` */
  function Format(template: string, kw: map<string, Value>): Result<string>
    decreases |template|
  {
    var t := template;
    if t == [] then Ok([])
    else if t[0] == '{' then
      if |t| == 1 then Err(ValueError("Single '{' encountered in format string"))
      else if t[1] == '{' then Prepend("{", Format(t[2..], kw))
      else
        var n := FieldLength(t[1..]);
        var name := t[1..1 + n];
        if IsComplexField(name) then Err(UnsupportedField(name))
        else if 1 + n == |t| then Err(ValueError("expected '}' before end of string"))
        else if t[1 + n] == '{' then Err(ValueError("unexpected '{' in field name"))
        else match Field(name, kw)
          case Err(e) => Err(e)
          case Ok(s) => Prepend(s, Format(t[2 + n..], kw))
    else if t[0] == '}' then
      if |t| > 1 && t[1] == '}' then Prepend("}", Format(t[2..], kw))
      else Err(ValueError("Single '}' encountered in format string"))
    else Prepend([t[0]], Format(t[1..], kw))
  }

  /** A template without braces is returned unchanged, whatever `kw` holds. */
  lemma {:induction false} FormatNoBraces(t: string, kw: map<string, Value>)
    requires NoBraces(t)
    ensures Format(t, kw) == Ok(t)
    decreases |t|
  {
    if t != [] {
      FormatNoBraces(t[1..], kw);
      assert [t[0]] + t[1..] == t;
    }
  }

  /** Literal text in front of a template is copied to the front of its expansion. */
  lemma {:induction false} FormatLiteralPrefix(p: string, rest: string, kw: map<string, Value>)
    requires NoBraces(p)
    ensures Format(p + rest, kw) == Prepend(p, Format(rest, kw))
    decreases |p|
  {
    if p == [] {
      assert p + rest == rest;
      match Format(rest, kw)
      case Ok(s) => assert p + s == s;
      case Err(e) =>
    } else {
      FormatLiteralPrefix(p[1..], rest, kw);
      assert (p + rest)[1..] == p[1..] + rest;
      match Format(rest, kw)
      case Ok(s) => assert [p[0]] + (p[1..] + s) == p + s;
      case Err(e) =>
    }
  }

  /**
   * A keyword field at the front of a template: it is replaced by the
   * display form of its value and the rest is expanded after it, or, when
   * `kw` lacks the name, the expansion raises KeyError for that name.
   */
  lemma FormatField(name: string, rest: string, kw: map<string, Value>)
    requires IsKeywordField(name) && NoBraces(name)
    ensures Format("{" + name + "}" + rest, kw) ==
      if name in kw then Prepend(Display(kw[name]), Format(rest, kw)) else Err(KeyError(name))
  {
    var t := "{" + name + "}" + rest;
    FieldLengthAt(name, rest);
    assert t[1..] == name + "}" + rest;
    assert t[1..1 + |name|] == t[1..][..|name|] == (name + "}" + rest)[..|name|] == name;
    assert t[1 + |name|] == '}';
    assert t[2 + |name|..] == rest;
  }

  lemma {:induction false} FieldLengthAt(name: string, rest: string)
    requires NoBraces(name)
    ensures FieldLength(name + "}" + rest) == |name|
    decreases |name|
  {
    if name != [] {
      FieldLengthAt(name[1..], rest);
      assert (name + "}" + rest)[1..] == name[1..] + "}" + rest;
    }
  }

  /** `"{k}".format(**kw)` with `k` in `kw` is the display string of `kw[k]`. */
  lemma FormatSingleField(name: string, kw: map<string, Value>)
    requires IsKeywordField(name) && NoBraces(name) && name in kw
    ensures Format("{" + name + "}", kw) == Ok(Display(kw[name]))
  {
    FormatField(name, "", kw);
    assert "{" + name + "}" + "" == "{" + name + "}";
    assert Display(kw[name]) + [] == Display(kw[name]);
  }

  /** A KeyError always names a field of the template that `kw` lacks. */
  lemma {:induction false} FormatKeyErrorIsMissing(t: string, kw: map<string, Value>)
    requires Format(t, kw).Err? && Format(t, kw).error.KeyError?
    ensures Format(t, kw).error.key !in kw
    decreases |t|
  {
    if t != [] {
      if t[0] == '{' && |t| > 1 && t[1] == '{' {
        FormatKeyErrorIsMissing(t[2..], kw);
      } else if t[0] == '{' && |t| > 1 {
        var n := FieldLength(t[1..]);
        if !IsComplexField(t[1..1 + n]) && 1 + n < |t| && t[1 + n] != '{' && Field(t[1..1 + n], kw).Ok? {
          FormatKeyErrorIsMissing(t[2 + n..], kw);
        }
      } else if t[0] == '}' && |t| > 1 && t[1] == '}' {
        FormatKeyErrorIsMissing(t[2..], kw);
      } else if t[0] != '{' && t[0] != '}' {
        FormatKeyErrorIsMissing(t[1..], kw);
      }
    }
  }

  /**
   * Extra keyword arguments do not change a successful expansion: a
   * template that expands under `kw` expands to the same text under any
   * `kw'` that agrees with `kw` on `kw`'s keys.
   */
  lemma {:induction false} FormatExtend(t: string, kw: map<string, Value>, kw': map<string, Value>)
    requires Format(t, kw).Ok?
    requires forall k :: k in kw ==> k in kw' && kw'[k] == kw[k]
    ensures Format(t, kw') == Format(t, kw)
    decreases |t|
  {
    if t != [] {
      if t[0] == '{' && |t| > 1 && t[1] == '{' {
        FormatExtend(t[2..], kw, kw');
      } else if t[0] == '{' {
        var n := FieldLength(t[1..]);
        FormatExtend(t[2 + n..], kw, kw');
      } else if t[0] == '}' {
        FormatExtend(t[2..], kw, kw');
      } else {
        FormatExtend(t[1..], kw, kw');
      }
    }
  }

  /** Literal text written as a template: every brace doubled. */
  function Escape(s: string): (t: string)
    decreases |s|
  {
    if s == [] then []
    else if IsBrace(s[0]) then [s[0], s[0]] + Escape(s[1..])
    else [s[0]] + Escape(s[1..])
  }

  /** The escapes round-trip: a doubled-brace template expands to the original text under any `kw`. */
  lemma {:induction false} FormatEscape(s: string, kw: map<string, Value>)
    ensures Format(Escape(s), kw) == Ok(s)
    decreases |s|
  {
    if s != [] {
      FormatEscape(s[1..], kw);
      var t := Escape(s);
      if IsBrace(s[0]) {
        assert t[2..] == Escape(s[1..]);
      } else {
        assert t[1..] == Escape(s[1..]);
      }
      assert [s[0]] + s[1..] == s;
    }
  }
}
