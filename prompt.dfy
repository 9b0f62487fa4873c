/**
  The prompt-template store (src/service/prompt_service.py): templates loaded
  from a directory listing (role templates kept apart), looked up by name and
  filled in with Python's `str.format` and keyword arguments.
*/
module Prompts {
  import opened Wrappers

  /** A loaded template: its "prompt", "parameters" and "type" entries, each possibly absent. */
  datatype Template = Template(
    prompt: Option<string>,
    parameters: Option<map<string, map<string, string>>>,
    kind: Option<string>)

  /** Why `str.format` gave up: a missing keyword, a construct outside the modelled subset, or a malformed string. */
  datatype FormatError = MissingKey(name: string) | Unsupported(field: string) | Malformed(message: string)

  /** What `get_prompt` and its neighbours raise, with the exception's text. */
  datatype PromptError = KeyError(message: string) | ValueError(message: string) | TypeError(message: string)
                       | FormatUnsupported(field: string)

  /**
    Python binds `self` and `template_name` before the keyword arguments, so a
    keyword argument of either name makes the call itself raise TypeError,
    naming the method; `template_name` is reported when both are given.
  */
  function DuplicateArgument(methodName: string, kwargs: map<string, string>): (r: Option<PromptError>)
    ensures r.None? <==> "template_name" !in kwargs && "self" !in kwargs
    ensures r.Some? ==> r.value.TypeError?
  {
    var prefix := "PromptService." + methodName + "() got multiple values for argument ";
    if "template_name" in kwargs then Some(TypeError(prefix + "'template_name'"))
    else if "self" in kwargs then Some(TypeError(prefix + "'self'"))
    else None
  }

  /** The code point is one of the ten following `zero`. */
  predicate InBlock(n: int, zero: int) {
    zero <= n < zero + 10
  }

  /**
    A decimal digit of any script (Unicode 15.0 category Nd, the characters
    `str.isdecimal` accepts and `str.format` reads as a position index): one
    block of ten per script, named here by the code point of its zero.
  */
  predicate IsDigit(c: char) {
    var n := c as int;
    || InBlock(n, 0x30) || InBlock(n, 0x660) || InBlock(n, 0x6F0) || InBlock(n, 0x7C0)
    || InBlock(n, 0x966) || InBlock(n, 0x9E6) || InBlock(n, 0xA66) || InBlock(n, 0xAE6)
    || InBlock(n, 0xB66) || InBlock(n, 0xBE6) || InBlock(n, 0xC66) || InBlock(n, 0xCE6)
    || InBlock(n, 0xD66) || InBlock(n, 0xDE6) || InBlock(n, 0xE50) || InBlock(n, 0xED0)
    || InBlock(n, 0xF20) || InBlock(n, 0x1040) || InBlock(n, 0x1090) || InBlock(n, 0x17E0)
    || InBlock(n, 0x1810) || InBlock(n, 0x1946) || InBlock(n, 0x19D0) || InBlock(n, 0x1A80)
    || InBlock(n, 0x1A90) || InBlock(n, 0x1B50) || InBlock(n, 0x1BB0) || InBlock(n, 0x1C40)
    || InBlock(n, 0x1C50) || InBlock(n, 0xA620) || InBlock(n, 0xA8D0) || InBlock(n, 0xA900)
    || InBlock(n, 0xA9D0) || InBlock(n, 0xA9F0) || InBlock(n, 0xAA50) || InBlock(n, 0xABF0)
    || InBlock(n, 0xFF10) || InBlock(n, 0x104A0) || InBlock(n, 0x10D30) || InBlock(n, 0x11066)
    || InBlock(n, 0x110F0) || InBlock(n, 0x11136) || InBlock(n, 0x111D0) || InBlock(n, 0x112F0)
    || InBlock(n, 0x11450) || InBlock(n, 0x114D0) || InBlock(n, 0x11650) || InBlock(n, 0x116C0)
    || InBlock(n, 0x11730) || InBlock(n, 0x118E0) || InBlock(n, 0x11950) || InBlock(n, 0x11C50)
    || InBlock(n, 0x11D50) || InBlock(n, 0x11DA0) || InBlock(n, 0x11F50) || InBlock(n, 0x16A60)
    || InBlock(n, 0x16AC0) || InBlock(n, 0x16B50) || InBlock(n, 0x1D7CE) || InBlock(n, 0x1D7D8)
    || InBlock(n, 0x1D7E2) || InBlock(n, 0x1D7EC) || InBlock(n, 0x1D7F6) || InBlock(n, 0x1E140)
    || InBlock(n, 0x1E2F0) || InBlock(n, 0x1E4F0) || InBlock(n, 0x1E950) || InBlock(n, 0x1FBF0)
  }

  /** ASCII digits and other scripts' digits alike make a field positional. */
  lemma DigitExamples()
    ensures IsDigit('7') && IsDigit('\U{661}') && IsDigit('\U{FF11}') && !IsDigit('a') && !IsDigit('_')
  {
  }

  /** The characters that end a field's argument name: attribute access and indexing. */
  predicate IsFieldDelimiter(c: char) {
    c == '.' || c == '['
  }

  /** A replacement field as `str.format` parses it: the field name, the conversion after '!', the format spec after ':'. */
  datatype FieldSpec = FieldSpec(name: string, conversion: Option<char>, spec: string)

  /** A parsed replacement field and the number of characters it takes up to and including its closing '}'. */
  datatype Parsed = Parsed(field: FieldSpec, length: nat)

  /** The position of the first `c` at or after `i`, if there is one. */
  function FindFrom(s: string, i: nat, c: char): (r: Option<nat>)
    ensures r.None? ==> forall k :: i <= k < |s| ==> s[k] != c
    ensures r.Some? ==> i <= r.value < |s| && s[r.value] == c && forall k :: i <= k < r.value ==> s[k] != c
    decreases |s| - i
  {
    if i >= |s| then None
    else if s[i] == c then Some(i)
    else FindFrom(s, i + 1, c)
  }

  /** The characters that end a field name when met outside square brackets. */
  predicate EndsName(c: char) {
    c == '}' || c == ':' || c == '!'
  }

  /**
    Scanning a field name from position `i`: the position of the '}', ':' or
    '!' that ends it. A '[' skips to the next ']', so those characters may
    appear inside an index; a '{' outside one is an error, and so is running
    off the end.
  */
  function NameEnd(s: string, i: nat): (r: Result<nat, FormatError>)
    ensures r.Success? ==> i <= r.value < |s| && EndsName(s[r.value])
    ensures r.Failure? ==> r.error == Malformed("unexpected '{' in field name") ||
                           r.error == Malformed("expected '}' before end of string")
    decreases |s| - i
  {
    if i >= |s| then Failure(Malformed("expected '}' before end of string"))
    else if s[i] == '{' then Failure(Malformed("unexpected '{' in field name"))
    else if s[i] == '[' then
      match FindFrom(s, i + 1, ']')
      case None => Failure(Malformed("expected '}' before end of string"))
      case Some(j) => NameEnd(s, j + 1)
    else if EndsName(s[i]) then Success(i)
    else NameEnd(s, i + 1)
  }

  /** The characters a plain field name is free of. */
  predicate Special(c: char) {
    c == '{' || c == '[' || EndsName(c)
  }

  /** Without brackets or braces, a field name ends at the first '}', ':' or '!'. */
  lemma {:induction false} NameEndPlain(s: string, i: nat, k: nat)
    requires i <= k < |s| && EndsName(s[k])
    requires forall j :: i <= j < k ==> !Special(s[j])
    ensures NameEnd(s, i) == Success(k)
    decreases k - i
  {
    if i < k {
      NameEndPlain(s, i + 1, k);
    }
  }

  /** Without brackets, a '{' before the end of the name is rejected. */
  lemma {:induction false} NameEndBrace(s: string, i: nat, k: nat)
    requires i <= k < |s| && s[k] == '{'
    requires forall j :: i <= j < k ==> !Special(s[j])
    ensures NameEnd(s, i) == Failure(Malformed("unexpected '{' in field name"))
    decreases k - i
  {
    if i < k {
      NameEndBrace(s, i + 1, k);
    }
  }

  /** The nesting a piece of text adds: one per '{', minus one per '}'. */
  function Balance(t: string): int {
    if t == [] then 0 else (if t[0] == '{' then 1 else if t[0] == '}' then -1 else 0) + Balance(t[1..])
  }

  /**
    Scanning a format spec from `i` at nesting `depth`: the position of the
    '}' that brings the nesting back to zero, which closes the field; the
    nesting never reaches zero before it.
  */
  function SpecEnd(s: string, i: nat, depth: nat): (r: Result<nat, FormatError>)
    requires depth >= 1
    ensures r.Success? ==> i <= r.value < |s| && s[r.value] == '}'
    ensures r.Success? ==> depth + Balance(s[i..r.value]) == 1
    ensures r.Success? ==> forall k :: i <= k <= r.value ==> depth + Balance(s[i..k]) >= 1
    ensures r.Failure? ==> r.error == Malformed("unmatched '{' in format spec")
    decreases |s| - i
  {
    if i >= |s| then Failure(Malformed("unmatched '{' in format spec"))
    else
      assert s[i..i] == [];
      var next := SpecEnd(s, i + 1, if s[i] == '{' then depth + 1 else if s[i] == '}' && depth > 1 then depth - 1 else depth);
      if s[i] == '}' && depth == 1 then Success(i)
      else if next.Success? then
        assert forall k :: i < k <= next.value ==> s[i..k][1..] == s[i + 1..k];
        next
      else next
  }

  /** The spec of a field from `start` to its closing brace. */
  function SpecAfter(s: string, name: string, conversion: Option<char>, start: nat): (r: Result<Parsed, FormatError>)
    requires start <= |s|
    ensures r.Success? ==> start < r.value.length <= |s| && s[r.value.length - 1] == '}' && r.value.field.name == name
  {
    match SpecEnd(s, start, 1)
    case Failure(e) => Failure(e)
    case Success(e) => Success(Parsed(FieldSpec(name, conversion, s[start..e]), e + 1))
  }

  /**
    One replacement field, `s` being the text after its opening '{': the
    parsed field and how many characters it takes up to and including its
    closing '}'. After '!' comes one conversion character, then '}' or ':';
    after ':' the spec runs to the brace that balances the opening one.
  */
  function ParseField(s: string): (r: Result<Parsed, FormatError>)
    ensures r.Success? ==> 0 < r.value.length <= |s| && s[r.value.length - 1] == '}'
    ensures r.Success? ==> |r.value.field.name| < r.value.length && r.value.field.name == s[..|r.value.field.name|]
  {
    match NameEnd(s, 0)
    case Failure(e) => Failure(e)
    case Success(k) =>
      var name := s[..k];
      if s[k] == '}' then Success(Parsed(FieldSpec(name, None, ""), k + 1))
      else if s[k] == ':' then SpecAfter(s, name, None, k + 1)
      else if k + 1 == |s| then Failure(Malformed("end of string while looking for conversion specifier"))
      else if k + 2 == |s| then SpecAfter(s, name, Some(s[k + 1]), k + 2)
      else if s[k + 2] == '}' then Success(Parsed(FieldSpec(name, Some(s[k + 1]), ""), k + 3))
      else if s[k + 2] != ':' then Failure(Malformed("expected ':' after conversion specifier"))
      else SpecAfter(s, name, Some(s[k + 1]), k + 3)
  }

  /** A field's argument name: everything before the first delimiter. */
  function ArgName(field: string): (r: string)
    ensures |r| <= |field| && r == field[..|r|]
    ensures forall i :: 0 <= i < |r| ==> !IsFieldDelimiter(r[i])
    ensures |r| < |field| ==> IsFieldDelimiter(field[|r|])
  {
    if field == [] || IsFieldDelimiter(field[0]) then []
    else [field[0]] + ArgName(field[1..])
  }

  /** An argument name that `str.format` reads as a keyword rather than a position. */
  predicate IsKeyword(arg: string) {
    arg != "" && exists i :: 0 <= i < |arg| && !IsDigit(arg[i])
  }

  /**
    The value of one parsed replacement field. The keyword is looked up first
    (a missing one is the KeyError `format` raises, whatever follows it);
    positional fields, and attribute access, indexing, conversions and format
    specs after a keyword found, are outside the subset.
  */
  function FieldValue(f: FieldSpec, kwargs: map<string, string>): (r: Result<string, FormatError>)
    ensures r.Success? ==> f.name in kwargs && r.value == kwargs[f.name] && f.conversion.None? && f.spec == ""
    ensures r == Failure(MissingKey(ArgName(f.name))) <==> IsKeyword(ArgName(f.name)) && ArgName(f.name) !in kwargs
    ensures r.Failure? && !r.error.MissingKey? ==> r.error == Unsupported(f.name)
    ensures IsKeyword(f.name) && f.name == ArgName(f.name) && f.name in kwargs && f.conversion.None? && f.spec == "" ==>
            r == Success(kwargs[f.name])
  {
    var arg := ArgName(f.name);
    if !IsKeyword(arg) then Failure(Unsupported(f.name))
    else if arg !in kwargs then Failure(MissingKey(arg))
    else if arg == f.name && f.conversion.None? && f.spec == "" then Success(kwargs[arg])
    else Failure(Unsupported(f.name))
  }

  /** `prefix` in front of a successful result; an error passes through. */
  function Then(prefix: string, r: Result<string, FormatError>): Result<string, FormatError> {
    match r
    case Success(s) => Success(prefix + s)
    case Failure(e) => Failure(e)
  }

  /**
    `s.format(**kwargs)` for the keyword subset, left to right: "{{" and "}}"
    are literal braces, each replacement field is parsed and then filled in,
    and the first error met is the one raised.
  */
  function Format(s: string, kwargs: map<string, string>): (r: Result<string, FormatError>)
    ensures (forall i :: 0 <= i < |s| ==> s[i] != '{' && s[i] != '}') ==> r == Success(s)
    decreases |s|
  {
    if s == [] then Success("")
    else if s[0] == '{' then
      if |s| == 1 then Failure(Malformed("Single '{' encountered in format string"))
      else if s[1] == '{' then Then("{", Format(s[2..], kwargs))
      else match ParseField(s[1..])
        case Failure(e) => Failure(e)
        case Success(Parsed(f, used)) =>
          match FieldValue(f, kwargs)
          case Failure(e) => Failure(e)
          case Success(v) => Then(v, Format(s[used + 1..], kwargs))
    else if s[0] == '}' then
      if |s| > 1 && s[1] == '}' then Then("}", Format(s[2..], kwargs))
      else Failure(Malformed("Single '}' encountered in format string"))
    else
      assert s == [s[0]] + s[1..];
      Then([s[0]], Format(s[1..], kwargs))
  }

  /** A template text seen as literal characters and keyword placeholders. */
  datatype Piece = Lit(c: char) | Field(name: string)

  /** A keyword placeholder name: not positional, and free of braces, brackets and delimiters. */
  predicate SimpleName(name: string) {
    && IsKeyword(name)
    && (forall i :: 0 <= i < |name| ==> !Special(name[i]) && !IsFieldDelimiter(name[i]))
  }

  /** The template text of one piece: a literal brace is doubled, a placeholder is braced. */
  function PieceSource(p: Piece): string {
    match p
    case Lit(c) => if c == '{' || c == '}' then [c, c] else [c]
    case Field(name) => "{" + name + "}"
  }

  /** The template text of the pieces. */
  function Source(ps: seq<Piece>): string {
    if ps == [] then "" else PieceSource(ps[0]) + Source(ps[1..])
  }

  /** The intended filling: each placeholder replaced by its argument, the first missing one reported. */
  function Render(ps: seq<Piece>, kwargs: map<string, string>): Result<string, FormatError> {
    if ps == [] then Success("")
    else match ps[0]
      case Lit(c) => Then([c], Render(ps[1..], kwargs))
      case Field(name) =>
        if name in kwargs then Then(kwargs[name], Render(ps[1..], kwargs)) else Failure(MissingKey(name))
  }

  /** A simple name followed by '}' parses as a bare keyword field ending at that brace. */
  lemma ParseSimpleField(name: string, rest: string)
    requires SimpleName(name)
    ensures ParseField(name + "}" + rest) == Success(Parsed(FieldSpec(name, None, ""), |name| + 1))
  {
    var t := name + "}" + rest;
    NameEndPlain(t, 0, |name|);
    assert t[..|name|] == name;
  }

  /** A simple name is its own argument name and is looked up as it stands. */
  lemma SimpleFieldValue(name: string, kwargs: map<string, string>)
    requires SimpleName(name)
    ensures FieldValue(FieldSpec(name, None, ""), kwargs) ==
            if name in kwargs then Success(kwargs[name]) else Failure(MissingKey(name))
  {
    assert ArgName(name) == name;
  }

  /** A braced keyword placeholder is looked up and formatting carries on after its closing brace. */
  lemma FieldPiece(name: string, rest: string, kwargs: map<string, string>)
    requires SimpleName(name)
    ensures Format("{" + name + "}" + rest, kwargs) ==
            if name in kwargs then Then(kwargs[name], Format(rest, kwargs)) else Failure(MissingKey(name))
  {
    var s := "{" + name + "}" + rest;
    assert s[1..] == name + "}" + rest;
    ParseSimpleField(name, rest);
    SimpleFieldValue(name, kwargs);
    assert s[|name| + 2..] == rest;
  }

  /**
    A keyword field with a format spec holding a nested field is parsed to
    its balancing brace; the keyword is looked up before the spec is read.
  */
  lemma NestedSpecField(name: string, inner: string, kwargs: map<string, string>)
    requires SimpleName(name) && SimpleName(inner)
    ensures Format("{" + name + ":{" + inner + "}}", kwargs) ==
            if name in kwargs then Failure(Unsupported(name)) else Failure(MissingKey(name))
  {
    var s := "{" + name + ":{" + inner + "}}";
    var t := s[1..];
    assert t == name + ":{" + inner + "}}";
    NameEndPlain(t, 0, |name|);
    assert t[..|name|] == name;
    SpecInner(t, |name| + 1, inner);
    assert ArgName(name) == name;
  }

  /**
    A field named by a digit of another script is positional, as an ASCII one
    is: it is never looked up among the keyword arguments, even one of that name.
  */
  lemma ScriptDigitFieldIsPositional(kwargs: map<string, string>)
    ensures Format("{\U{661}}", kwargs) == Failure(Unsupported("\U{661}"))
    ensures Format("{\U{FF11}}", kwargs) == Failure(Unsupported("\U{FF11}"))
  {
    var t := "\U{661}}";
    NameEndPlain(t, 0, 1);
    assert t[..1] == "\U{661}";
    assert ArgName("\U{661}") == "\U{661}";
    var u := "\U{FF11}}";
    NameEndPlain(u, 0, 1);
    assert u[..1] == "\U{FF11}";
    assert ArgName("\U{FF11}") == "\U{FF11}";
  }

  /** The spec "{inner}}" closes at its second '}'. */
  lemma SpecInner(t: string, start: nat, inner: string)
    requires start + |inner| + 3 == |t| && t[start] == '{' && t[start + |inner| + 1] == '}' && t[start + |inner| + 2] == '}'
    requires forall j :: start < j <= start + |inner| ==> t[j] != '{' && t[j] != '}'
    ensures SpecEnd(t, start, 1) == Success(|t| - 1)
  {
    SpecRun(t, start + 1, start + |inner| + 1, 2);
  }

  /** A run free of braces leaves the nesting as it was. */
  lemma {:induction false} SpecRun(t: string, i: nat, k: nat, depth: nat)
    requires 1 <= depth && i <= k < |t| && forall j :: i <= j < k ==> t[j] != '{' && t[j] != '}'
    ensures SpecEnd(t, i, depth) == SpecEnd(t, k, depth)
    decreases k - i
  {
    if i < k {
      SpecRun(t, i + 1, k, depth);
    }
  }

  /** Formatting a literal piece's text yields the character and carries on after it. */
  lemma LitPiece(c: char, rest: string, kwargs: map<string, string>)
    ensures Format(PieceSource(Lit(c)) + rest, kwargs) == Then([c], Format(rest, kwargs))
  {
    var s := PieceSource(Lit(c)) + rest;
    if c == '{' || c == '}' {
      assert s[2..] == rest;
    } else {
      assert s[1..] == rest;
    }
  }

  /**
    Formatting a template written with keyword placeholders replaces each one
    with its argument, and fails with the first placeholder that has none.
  */
  lemma {:induction false} FormatRendersPlaceholders(ps: seq<Piece>, kwargs: map<string, string>)
    requires forall i :: 0 <= i < |ps| && ps[i].Field? ==> SimpleName(ps[i].name)
    ensures Format(Source(ps), kwargs) == Render(ps, kwargs)
  {
    if ps != [] {
      var rest := ps[1..];
      FormatRendersPlaceholders(rest, kwargs);
      match ps[0]
      case Lit(c) => LitPiece(c, Source(rest), kwargs);
      case Field(name) => FieldPiece(name, Source(rest), kwargs);
    }
  }

  /** A loaded template file: the name in the directory listing and its parsed content. */
  datatype TemplateFile = TemplateFile(filename: string, content: Template)

  /** The name ends in ".yaml". */
  predicate HasYamlExtension(s: string) {
    |s| >= 5 && s[|s| - 5] == '.' && s[|s| - 4] == 'y' && s[|s| - 3] == 'a' && s[|s| - 2] == 'm' && s[|s| - 1] == 'l'
  }

  /** The name ends in ".yml". */
  predicate HasYmlExtension(s: string) {
    |s| >= 4 && s[|s| - 4] == '.' && s[|s| - 3] == 'y' && s[|s| - 2] == 'm' && s[|s| - 1] == 'l'
  }

  /** The loader's filter: the name ends in ".yaml" or ".yml". */
  predicate IsTemplateFile(f: TemplateFile) {
    HasYamlExtension(f.filename) || HasYmlExtension(f.filename)
  }

  /** `template.get("type", "") == "role"`. */
  predicate IsRoleTemplate(t: Template) {
    t.kind == Some("role")
  }

  /**
    `os.path.splitext(filename)[0]` for a template file name: the name without
    its final extension, unless only dots precede that extension (".yaml" is
    its own stem).
  */
  function Stem(filename: string): (r: string)
    ensures |r| <= |filename| && r == filename[..|r|]
    ensures HasYamlExtension(filename) && !AllDots(filename[..|filename| - 5]) ==> r == filename[..|filename| - 5]
    ensures HasYmlExtension(filename) && !AllDots(filename[..|filename| - 4]) ==> r == filename[..|filename| - 4]
    ensures HasYamlExtension(filename) && AllDots(filename[..|filename| - 5]) ==> r == filename
    ensures HasYmlExtension(filename) && AllDots(filename[..|filename| - 4]) ==> r == filename
    ensures !HasYamlExtension(filename) && !HasYmlExtension(filename) ==> r == filename
  {
    var ext := if HasYamlExtension(filename) then 5 else if HasYmlExtension(filename) then 4 else 0;
    var stem := filename[..|filename| - ext];
    if AllDots(stem) then filename else stem
  }

  /** The string is made of dots only (the empty string included). */
  predicate AllDots(s: string)
    ensures AllDots(s) <==> forall i :: 0 <= i < |s| ==> s[i] == '.'
  {
    s == [] || (s[0] == '.' && AllDots(s[1..]))
  }

  /** One step of the loader: a template file of the wanted kind is stored under its stem. */
  function AddIfKind(m: map<string, Template>, f: TemplateFile, wantRole: bool): map<string, Template> {
    if IsTemplateFile(f) && IsRoleTemplate(f.content) == wantRole then m[Stem(f.filename) := f.content] else m
  }

  /** The map the loader fills from the listing: role templates (`wantRole`) or all the others, by stem. */
  function Classified(files: seq<TemplateFile>, wantRole: bool): map<string, Template> {
    if files == [] then map[]
    else AddIfKind(Classified(files[..|files| - 1], wantRole), files[|files| - 1], wantRole)
  }

  lemma ClassifiedStep(files: seq<TemplateFile>, i: nat, wantRole: bool)
    requires i < |files|
    ensures Classified(files[..i + 1], wantRole) == AddIfKind(Classified(files[..i], wantRole), files[i], wantRole)
  {
    assert files[..i + 1][..i] == files[..i];
  }

  /** The file is a template file of the wanted kind with that stem. */
  ghost predicate Names(f: TemplateFile, wantRole: bool, name: string) {
    IsTemplateFile(f) && IsRoleTemplate(f.content) == wantRole && Stem(f.filename) == name
  }

  /** A name is loaded into a map exactly when a template file of that kind has it as stem. */
  lemma {:induction false} ClassifiedMembers(files: seq<TemplateFile>, wantRole: bool, name: string)
    ensures name in Classified(files, wantRole) <==> exists i :: 0 <= i < |files| && Names(files[i], wantRole, name)
  {
    if files != [] {
      var n := |files| - 1;
      var init := files[..n];
      ClassifiedMembers(init, wantRole, name);
      var before := Classified(init, wantRole);
      var f := files[n];
      assert Classified(files, wantRole) == AddIfKind(before, f, wantRole);
      assert forall i :: 0 <= i < n ==> init[i] == files[i];
      if Names(f, wantRole, name) {
        assert name in AddIfKind(before, f, wantRole);
      } else {
        assert name in AddIfKind(before, f, wantRole) <==> name in before;
        assert (exists i :: 0 <= i < |files| && Names(files[i], wantRole, name)) <==>
               (exists i :: 0 <= i < n && Names(init[i], wantRole, name));
      }
    }
  }

  /** File `i` is the last template file of the wanted kind with that stem. */
  ghost predicate LastNaming(files: seq<TemplateFile>, wantRole: bool, name: string, i: int) {
    0 <= i < |files| && Names(files[i], wantRole, name) &&
    forall j :: i < j < |files| ==> !Names(files[j], wantRole, name)
  }

  /** A loaded name holds the content of the last template file of that kind with that stem. */
  lemma {:induction false} ClassifiedLast(files: seq<TemplateFile>, wantRole: bool, name: string)
    requires name in Classified(files, wantRole)
    ensures exists i :: LastNaming(files, wantRole, name, i) && Classified(files, wantRole)[name] == files[i].content
  {
    var n := |files| - 1;
    var init := files[..n];
    var before := Classified(init, wantRole);
    assert Classified(files, wantRole) == AddIfKind(before, files[n], wantRole);
    if Names(files[n], wantRole, name) {
      assert LastNaming(files, wantRole, name, n);
    } else {
      assert name in before && Classified(files, wantRole)[name] == before[name];
      ClassifiedLast(init, wantRole, name);
      var i :| LastNaming(init, wantRole, name, i) && before[name] == init[i].content;
      LastNamingExtends(files, wantRole, name, i);
    }
  }

  /** Appending a file that does not name `name` keeps the last file naming it. */
  lemma LastNamingExtends(files: seq<TemplateFile>, wantRole: bool, name: string, i: int)
    requires files != [] && LastNaming(files[..|files| - 1], wantRole, name, i)
    requires !Names(files[|files| - 1], wantRole, name)
    ensures LastNaming(files, wantRole, name, i) && files[i] == files[..|files| - 1][i]
  {
    var init := files[..|files| - 1];
    assert forall j :: i < j < |files| - 1 ==> init[j] == files[j];
  }

  /** The text `get_start_prompt_by_role` falls back on. */
  const DefaultRolePrompt := "you are a helpful agent"

  /** `PromptService`, over a directory listing of already-parsed template files. */
  class PromptService {
    const promptTemplateDir: string
    var promptTemplates: map<string, Template>
    var rolePrompts: map<string, Template>

    constructor (promptTemplateDir: string)
      ensures this.promptTemplateDir == promptTemplateDir
      ensures promptTemplates == map[] && rolePrompts == map[]
    {
      this.promptTemplateDir := promptTemplateDir;
      promptTemplates := map[];
      rolePrompts := map[];
    }

    /**
      `PromptService(dir)`: start empty and load the directory; a directory
      that does not exist (None) raises FileNotFoundError.
    */
    static method Create(promptTemplateDir: string, listing: Option<seq<TemplateFile>>)
      returns (r: Result<PromptService, string>)
      ensures r.Failure? <==> listing.None?
      ensures r.Failure? ==> r.error == "Prompt template directory not found: " + promptTemplateDir
      ensures r.Success? ==> fresh(r.value) && r.value.promptTemplateDir == promptTemplateDir
      ensures r.Success? ==> r.value.promptTemplates == Classified(listing.value, false)
      ensures r.Success? ==> r.value.rolePrompts == Classified(listing.value, true)
    {
      var service := new PromptService(promptTemplateDir);
      if listing.None? {
        return Failure("Prompt template directory not found: " + promptTemplateDir);
      }
      service.LoadPromptTemplates(listing.value);
      r := Success(service);
    }

    /** The loop of `_load_prompt_templates` over an existing directory's files. */
    method LoadPromptTemplates(files: seq<TemplateFile>)
      requires promptTemplates == map[] && rolePrompts == map[]
      modifies this`promptTemplates, this`rolePrompts
      ensures promptTemplates == Classified(files, false)
      ensures rolePrompts == Classified(files, true)
    {
      var i := 0;
      while i < |files|
        invariant 0 <= i <= |files|
        invariant promptTemplates == Classified(files[..i], false)
        invariant rolePrompts == Classified(files[..i], true)
      {
        var f := files[i];
        ClassifiedStep(files, i, false);
        ClassifiedStep(files, i, true);
        if IsTemplateFile(f) {
          var name := Stem(f.filename);
          if f.content.kind == Some("role") {
            rolePrompts := rolePrompts[name := f.content];
          } else {
            promptTemplates := promptTemplates[name := f.content];
          }
        }
        i := i + 1;
      }
      assert files[..i] == files;
    }

    /**
      `get_prompt`: a keyword argument named `self` or `template_name` cannot
      be passed; an unknown name raises KeyError; otherwise the template's
      prompt ("" when absent) is formatted, a missing keyword becoming a
      KeyError that names it.
    */
    function GetPrompt(templateName: string, kwargs: map<string, string>): (r: Result<string, PromptError>)
      reads this`promptTemplates
      ensures DuplicateArgument("get_prompt", kwargs).Some? ==> r == Failure(DuplicateArgument("get_prompt", kwargs).value)
      ensures DuplicateArgument("get_prompt", kwargs).None? && templateName !in promptTemplates ==>
                r == Failure(KeyError("Prompt template not found: " + templateName))
      ensures DuplicateArgument("get_prompt", kwargs).None? && templateName in promptTemplates ==>
                var text := promptTemplates[templateName].prompt;
                var formatted := Format(if text.Some? then text.value else "", kwargs);
                && (r.Success? <==> formatted.Success?)
                && (r.Success? ==> r.value == formatted.value)
                && (formatted.Failure? && formatted.error.MissingKey? ==>
                      r == Failure(KeyError("Missing required parameter in prompt template: '" + formatted.error.name + "'")))
                && (formatted.Failure? && formatted.error.Malformed? ==> r == Failure(ValueError(formatted.error.message)))
                && (formatted.Failure? && formatted.error.Unsupported? ==> r == Failure(FormatUnsupported(formatted.error.field)))
    {
      if DuplicateArgument("get_prompt", kwargs).Some? then Failure(DuplicateArgument("get_prompt", kwargs).value)
      else if templateName !in promptTemplates then Failure(KeyError("Prompt template not found: " + templateName))
      else
        var template := promptTemplates[templateName];
        var promptTemplate := if template.prompt.Some? then template.prompt.value else "";
        match Format(promptTemplate, kwargs)
        case Success(s) => Success(s)
        case Failure(MissingKey(name)) => Failure(KeyError("Missing required parameter in prompt template: '" + name + "'"))
        case Failure(Malformed(message)) => Failure(ValueError(message))
        case Failure(Unsupported(field)) => Failure(FormatUnsupported(field))
    }

    /** `add_template`: stores the template under the name, replacing any earlier one. */
    method AddTemplate(templateName: string, template: Template)
      modifies this`promptTemplates
      ensures promptTemplates == old(promptTemplates)[templateName := template]
    {
      promptTemplates := promptTemplates[templateName := template];
    }

    /** `get_template_parameters`: the "parameters" entry, None when absent; an unknown name raises KeyError. */
    function GetTemplateParameters(templateName: string): (r: Result<Option<map<string, map<string, string>>>, PromptError>)
      reads this`promptTemplates
      ensures r.Failure? <==> templateName !in promptTemplates
      ensures r.Failure? ==> r.error == KeyError("Prompt template not found: " + templateName)
      ensures r.Success? ==> r.value == promptTemplates[templateName].parameters
    {
      if templateName !in promptTemplates then Failure(KeyError("Prompt template not found: " + templateName))
      else Success(promptTemplates[templateName].parameters)
    }

    /** `remove_template`: deletes only that name; an unknown name raises KeyError and changes nothing. */
    method RemoveTemplate(templateName: string) returns (r: Outcome<PromptError>)
      modifies this`promptTemplates
      ensures r.Fail? <==> templateName !in old(promptTemplates)
      ensures r.Fail? ==> r.error == KeyError("Prompt template not found: " + templateName) &&
                          promptTemplates == old(promptTemplates)
      ensures r.Pass? ==> promptTemplates.Keys == old(promptTemplates).Keys - {templateName} &&
                          forall k :: k in promptTemplates ==> promptTemplates[k] == old(promptTemplates)[k]
    {
      if templateName !in promptTemplates {
        return Fail(KeyError("Prompt template not found: " + templateName));
      }
      promptTemplates := promptTemplates - {templateName};
      r := Pass;
    }

    /**
      `build_prompt_from_template`: the same keyword restriction, then checks
      the name, merges the keyword arguments over an empty set of defaults and
      defers to `get_prompt`.
    */
    function BuildPromptFromTemplate(templateName: string, kwargs: map<string, string>): (r: Result<string, PromptError>)
      reads this`promptTemplates
      ensures DuplicateArgument("build_prompt_from_template", kwargs).Some? ==>
                r == Failure(DuplicateArgument("build_prompt_from_template", kwargs).value)
      ensures DuplicateArgument("build_prompt_from_template", kwargs).None? ==> r == GetPrompt(templateName, kwargs)
    {
      if DuplicateArgument("build_prompt_from_template", kwargs).Some? then
        Failure(DuplicateArgument("build_prompt_from_template", kwargs).value)
      else if templateName !in promptTemplates then Failure(KeyError("Prompt template not found: " + templateName))
      else
        var contextParams: map<string, string> := map[];
        assert contextParams + kwargs == kwargs;
        GetPrompt(templateName, contextParams + kwargs)
    }

    /**
      `get_start_prompt_by_role`: the role template's prompt (None when it has
      none), or the default prompt for an unknown role.
    */
    function GetStartPromptByRole(role: string): (r: Option<string>)
      reads this`rolePrompts
      ensures role !in rolePrompts ==> r == Some(DefaultRolePrompt)
      ensures role in rolePrompts ==> r == rolePrompts[role].prompt
    {
      var template := if role in rolePrompts then rolePrompts[role] else Template(Some(DefaultRolePrompt), None, None);
      template.prompt
    }
  }
}
