/**
 * The translation helpers of the application window: `load_translations` builds a
 * key-to-text table for one language, and `tr` looks a text up in it and, when named
 * arguments are given, fills the `{name}` fields of the result with `str.format`.
 */
module Translation {
  import opened Wrappers
  import opened Text

  /** `translations.get(text, text)`: the translated text, or the text itself when it has no entry. */
  function Lookup(translations: map<string, string>, text: string): string {
    if text in translations then translations[text] else text
  }

  /**
   * `load_translations(lang)`: every key of the translation file, mapped to its text in `lang`
   * or, when the language has no entry for the key, to the key itself.
   */
  function LoadTranslations(all: map<string, map<string, string>>, lang: string): (r: map<string, string>)
    ensures r.Keys == all.Keys
    ensures forall key :: key in all && lang in all[key] ==> r[key] == all[key][lang]
    ensures forall key :: key in all && lang !in all[key] ==> r[key] == key
  {
    map key | key in all :: if lang in all[key] then all[key][lang] else key
  }

  /** A text looked up in a loaded table is its text in `lang`, falling back to the key itself. */
  lemma {:induction false} LookupLoaded(all: map<string, map<string, string>>, lang: string, text: string)
    ensures Lookup(LoadTranslations(all, lang), text)
            == if text in all && lang in all[text] then all[text][lang] else text
  {
  }

  predicate BraceFree(s: string) {
    forall i :: 0 <= i < |s| ==> s[i] != '{' && s[i] != '}'
  }

  function Prepend(prefix: string, r: Option<string>): Option<string> {
    match r
    case None => None
    case Some(s) => Some(prefix + s)
  }

  /**
   * `template.format(**args)` for plain `{name}` fields: `{{` and `}}` stand for single braces,
   * a field whose name is not among the arguments (KeyError), a lone `}` or an unclosed `{`
   * (ValueError) make it fail.
   */
  function Format(template: string, args: map<string, string>): Option<string>
    decreases |template|
  {
    if template == [] then Some([])
    else if template[0] == '{' then
      if |template| > 1 && template[1] == '{' then Prepend("{", Format(template[2..], args))
      else
        var rest := template[1..];
        match IndexOfChar(rest, '}')
        case None => None
        case Some(j) =>
          var name := rest[..j];
          if name in args then Prepend(args[name], Format(rest[j + 1..], args)) else None
    else if template[0] == '}' then
      if |template| > 1 && template[1] == '}' then Prepend("}", Format(template[2..], args)) else None
    else Prepend([template[0]], Format(template[1..], args))
  }

  /** Text without braces is copied through, before whatever follows it. */
  lemma {:induction false} FormatBraceFreePrefix(prefix: string, rest: string, args: map<string, string>)
    requires BraceFree(prefix)
    ensures Format(prefix + rest, args) == Prepend(prefix, Format(rest, args))
  {
    if prefix != [] {
      var t := prefix + rest;
      assert t[0] == prefix[0] && t[1..] == prefix[1..] + rest;
      assert Format(t, args) == Prepend([prefix[0]], Format(prefix[1..] + rest, args));
      FormatBraceFreePrefix(prefix[1..], rest, args);
      match Format(rest, args)
      case None =>
      case Some(s) => assert [prefix[0]] + (prefix[1..] + s) == prefix + s;
    } else {
      assert prefix + rest == rest;
      match Format(rest, args)
      case None =>
      case Some(s) => assert prefix + s == s;
    }
  }

  /** A template without fields formats to itself. */
  lemma {:induction false} FormatBraceFree(template: string, args: map<string, string>)
    requires BraceFree(template)
    ensures Format(template, args) == Some(template)
  {
    FormatBraceFreePrefix(template, [], args);
    assert template + [] == template;
  }

  /** A field `{name}` is replaced by the argument of that name; one with no argument fails. */
  lemma {:induction false} FormatField(name: string, rest: string, args: map<string, string>)
    requires BraceFree(name) && name != []
    ensures name in args ==> Format("{" + name + "}" + rest, args) == Prepend(args[name], Format(rest, args))
    ensures name !in args ==> Format("{" + name + "}" + rest, args) == None
  {
    var t := "{" + name + "}" + rest;
    var after := t[1..];
    assert after == name + "}" + rest;
    assert forall i :: 0 <= i < |name| ==> after[i] == name[i];
    assert after[|name|] == '}';
    assert IndexOfChar(after, '}') == Some(|name|);
    assert after[..|name|] == name;
    assert after[|name| + 1..] == rest;
  }

  /** The field `{name}` of a template. */
  function Placeholder(name: string): string {
    "{" + name + "}"
  }

  /** `a{f}b{g}` formats to `a`, the argument named `f`, `b` and the argument named `g`. */
  lemma {:induction false} FormatTwoFields(a: string, f: string, b: string, g: string, args: map<string, string>)
    requires BraceFree(a) && BraceFree(b) && BraceFree(f) && BraceFree(g) && f != [] && g != []
    requires f in args && g in args
    ensures Format(a + Placeholder(f) + b + Placeholder(g), args) == Some(a + args[f] + b + args[g])
  {
    var t2 := Placeholder(g);
    var t1 := Placeholder(f) + (b + t2);
    assert a + Placeholder(f) + b + Placeholder(g) == a + t1;
    FormatBraceFreePrefix(a, t1, args);
    FormatField(f, b + t2, args);
    FormatBraceFreePrefix(b, t2, args);
    assert t2 == "{" + g + "}" + "";
    FormatField(g, "", args);
    assert Format("", args) == Some("");
    assert args[g] + "" == args[g];
    assert Format(t2, args) == Some(args[g]);
    assert Format(b + t2, args) == Some(b + args[g]);
    assert Format(t1, args) == Some(args[f] + (b + args[g]));
    assert a + (args[f] + (b + args[g])) == a + args[f] + b + args[g];
  }

  /**
   * `tr(text, **kwargs)`: the looked-up text, formatted with the arguments when there are any;
   * `None` when formatting raises.
   */
  function Tr(translations: map<string, string>, text: string, kwargs: map<string, string>): (r: Option<string>)
    ensures kwargs == map[] ==> r == Some(Lookup(translations, text))
    ensures kwargs != map[] && BraceFree(Lookup(translations, text)) ==> r == Some(Lookup(translations, text))
  {
    var translated := Lookup(translations, text);
    if kwargs == map[] then Some(translated)
    else
      assert BraceFree(translated) ==> Format(translated, kwargs) == Some(translated) by {
        if BraceFree(translated) { FormatBraceFree(translated, kwargs); }
      }
      Format(translated, kwargs)
  }
}
