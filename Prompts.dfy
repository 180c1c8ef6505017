/** The prompt composer of the thumbnail generator: two constant lookup
    tables and the string the handler builds from the request body before
    it calls the image model. */
module Prompts {
  import opened JsValues

  /** Visual style name -> description placed in the first clause. */
  const StylePrompts: map<string, string> := map[
    "Bold & Graphic" :=
      "eye catching thumbnail, bold typography, vibrant colors, expressive facial reaction, dramatic lighting, high contrast, click-worthy composition, professional style",
    "Tech/Futuristic" :=
      "futuristic thumbnail, sleek modern design, digital UI elements, glowing accents, holographic effects, cyber-tech aesthetic, sharp lighting, high-tech atmosphere",
    "Minimalist" :=
      "minimalist thumbnail, clean layout, simple shapes, limited color palette, plenty of negative space, modern flat design, clear focal point",
    "Photorealistic" :=
      "photorealistic thumbnail, ultra-realistic lighting, natural skin tones, candid moment, DSLR-style photography, lifestyle realism, shallow depth of field",
    "Illustrated" :=
      "illustrated thumbnail, custom digital illustration, stylized characters, bold outlines, vibrant colors, creative cartoon or vector art style"
  ]

  /** Colour scheme name -> description placed in the optional colour clause. */
  const ColorSchemesDescriptions: map<string, string> := map[
    "vibrant" := "vibrant and energetic colors, high saturation, bold contrasts, eye-catching palette",
    "sunset" := "warm sunset tones, orange pink and purple hues, soft gradients, cinematic glow",
    "forest" := "natural green tones, earthy colors, calm and organic palette, fresh atmosphere",
    "neon" := "neon glow effects, electric blues and pinks, cyberpunk lighting, high contrast glow",
    "purple" := "purple-dominant color palette, magenta and violet tones, modern and stylish mood",
    "monochrome" := "black and white color scheme, high contrast, dramatic lighting, timeless aesthetic",
    "ocean" := "cool blue and teal tones, aquatic color palette, fresh and clean atmosphere",
    "pastel" := "soft pastel colors, low saturation, gentle tones, calm and friendly aesthetic"
  ]

  /** The two lookup tables the composer reads. The composer and its
      lemmas hold for any pair of tables; the handler passes `Descriptions`,
      the two constants above. */
  datatype Tables = Tables(styles: map<string, string>, colors: map<string, string>)

  const Descriptions: Tables := Tables(StylePrompts, ColorSchemesDescriptions)

  const QualityDirective: string :=
    ". Make it bold, professional, high contrast, and designed to maximize click-through rate."

  const ColorMarker: string := "Use a "
  const DetailsMarker: string := "Additional details: "
  const AspectMarker: string := "Aspect ratio "

  /** `stylePrompts[style]` as the template literal prints it: the table's
      description, or "undefined" for an unknown or absent style. */
  function StyleDescription(t: Tables, style: Field): string {
    Render(Lookup(t.styles, Render(style)))
  }

  /** `colorSchemesDescriptions[colorScheme]` as the template literal prints it. */
  function ColorDescription(t: Tables, colorScheme: string): string {
    Render(Lookup(t.colors, colorScheme))
  }

  function StyleClause(t: Tables, title: Field, style: Field): string {
    "Create a " + StyleDescription(t, style) + " thumbnail for \"" + Render(title) + "\". "
  }

  function ColorClause(t: Tables, colorScheme: string): string {
    ColorMarker + ColorDescription(t, colorScheme) + " color scheme. "
  }

  function DetailsClause(userPrompt: string): string {
    DetailsMarker + userPrompt + ". "
  }

  function AspectClause(aspectRatio: Field): string {
    AspectMarker + Render(aspectRatio) + QualityDirective
  }

  /** The optional clauses, each present only when its field is truthy. */
  function OptColor(t: Tables, colorScheme: Field): string {
    if Truthy(colorScheme) then ColorClause(t, colorScheme.value) else ""
  }

  function OptDetails(userPrompt: Field): string {
    if Truthy(userPrompt) then DetailsClause(userPrompt.value) else ""
  }

  /** The whole prompt: style clause, optional colour clause, optional
      details clause, aspect clause, in that order. */
  function Prompt(t: Tables, title: Field, userPrompt: Field, style: Field, aspectRatio: Field, colorScheme: Field): string {
    StyleClause(t, title, style) + OptColor(t, colorScheme) + OptDetails(userPrompt) + AspectClause(aspectRatio)
  }

  predicate StartsWith(s: string, prefix: string) {
    |prefix| <= |s| && s[..|prefix|] == prefix
  }

  /** Builds the prompt by successive appends, as the handler does. */
  method ComposePrompt(t: Tables, title: Field, userPrompt: Field, style: Field, aspectRatio: Field, colorScheme: Field)
    returns (prompt: string)
    ensures prompt == Prompt(t, title, userPrompt, style, aspectRatio, colorScheme)
  {
    prompt := StyleClause(t, title, style);
    if Truthy(colorScheme) {
      prompt := prompt + ColorClause(t, colorScheme.value);
    } else {
      AppendEmpty(prompt);
    }
    assert prompt == StyleClause(t, title, style) + OptColor(t, colorScheme);
    if Truthy(userPrompt) {
      prompt := prompt + DetailsClause(userPrompt.value);
    } else {
      AppendEmpty(prompt);
    }
    assert prompt == StyleClause(t, title, style) + OptColor(t, colorScheme) + OptDetails(userPrompt);
    prompt := prompt + AspectClause(aspectRatio);
  }

  lemma AppendEmpty(s: string)
    ensures s + "" == s
  {
  }

  lemma PrefixOfConcat(a: string, b: string)
    ensures StartsWith(a + b, a)
  {
    assert (a + b)[..|a|] == a;
  }

  lemma StartsWithTrans(s: string, t: string, prefix: string)
    requires StartsWith(s, t) && StartsWith(t, prefix)
    ensures StartsWith(s, prefix)
  {
    assert s[..|prefix|] == s[..|t|][..|prefix|];
  }

  lemma AspectClauseStart(aspectRatio: Field)
    ensures StartsWith(AspectClause(aspectRatio), AspectMarker)
  {
    PrefixOfConcat(AspectMarker, Render(aspectRatio));
    PrefixOfConcat(AspectMarker + Render(aspectRatio), QualityDirective);
    StartsWithTrans(AspectClause(aspectRatio), AspectMarker + Render(aspectRatio), AspectMarker);
  }

  lemma ColorClauseStart(t: Tables, colorScheme: string)
    ensures StartsWith(ColorClause(t, colorScheme), ColorMarker)
  {
    PrefixOfConcat(ColorMarker, ColorDescription(t, colorScheme));
    PrefixOfConcat(ColorMarker + ColorDescription(t, colorScheme), " color scheme. ");
    StartsWithTrans(ColorClause(t, colorScheme), ColorMarker + ColorDescription(t, colorScheme), ColorMarker);
  }

  lemma DetailsClauseStart(userPrompt: string)
    ensures StartsWith(DetailsClause(userPrompt), DetailsMarker)
  {
    PrefixOfConcat(DetailsMarker, userPrompt);
    PrefixOfConcat(DetailsMarker + userPrompt, ". ");
    StartsWithTrans(DetailsClause(userPrompt), DetailsMarker + userPrompt, DetailsMarker);
  }

  /** Four pieces joined in order: the first is a prefix and the last a suffix. */
  lemma JoinedFrame(a: string, b: string, c: string, d: string)
    ensures StartsWith(a + b + c + d, a)
    ensures var j := a + b + c + d; j[|j| - |d|..] == d
  {
    var j := a + b + c + d;
    assert j == a + (b + c + d);
    PrefixOfConcat(a, b + c + d);
    assert j[|j| - |d|..] == d;
  }

  /** The prompt opens with the style clause and closes with the aspect clause. */
  lemma PromptFrame(t: Tables, title: Field, userPrompt: Field, style: Field, aspectRatio: Field, colorScheme: Field)
    ensures var p := Prompt(t, title, userPrompt, style, aspectRatio, colorScheme);
      var ac := AspectClause(aspectRatio);
      StartsWith(p, StyleClause(t, title, style)) && |ac| <= |p| && p[|p| - |ac|..] == ac
  {
    JoinedFrame(StyleClause(t, title, style), OptColor(t, colorScheme), OptDetails(userPrompt), AspectClause(aspectRatio));
  }

  /** What follows the first one or two of four joined pieces. */
  lemma JoinedTails(a: string, b: string, c: string, d: string)
    ensures (a + b + c + d)[|a|..] == b + c + d
    ensures (a + b + c + d)[|a| + |b|..] == c + d
  {
    assert a + b + c + d == a + (b + c + d);
    assert a + b + c + d == (a + b) + (c + d);
  }

  /** A string that starts with `t` cannot start with a prefix whose
      character at `k` differs from `t`'s. */
  lemma StartsDiffer(s: string, t: string, prefix: string, k: nat)
    requires StartsWith(s, t) && k < |t| && k < |prefix| && t[k] != prefix[k]
    ensures !StartsWith(s, prefix)
  {
    assert s[k] == t[k];
  }

  /** `x + y` starts with `prefix` when `x` does. */
  lemma StartsWithJoin(x: string, y: string, prefix: string)
    requires StartsWith(x, prefix)
    ensures StartsWith(x + y, prefix)
  {
    PrefixOfConcat(x, y);
    StartsWithTrans(x + y, x, prefix);
  }

  /** Shape of the text after the opening clause, for any pieces: an
      optional piece starting with the colour marker, an optional piece
      starting with the details marker, and a last piece starting with the
      aspect marker. */
  lemma ColorMarkerAfter(sc: string, oc: string, od: string, ac: string, on: bool)
    requires on ==> StartsWith(oc, ColorMarker)
    requires !on ==> oc == ""
    requires od == "" || StartsWith(od, DetailsMarker)
    requires StartsWith(ac, AspectMarker)
    ensures (sc + oc + od + ac)[|sc|..] == oc + od + ac
    ensures on <==> StartsWith(oc + od + ac, ColorMarker)
    ensures on ==> StartsWith(oc + od + ac, oc)
  {
    JoinedTails(sc, oc, od, ac);
    var rest := oc + od + ac;
    assert rest == oc + (od + ac);
    PrefixOfConcat(oc, od + ac);
    if on {
      StartsWithTrans(rest, oc, ColorMarker);
    } else {
      assert rest == od + ac;
      if od != "" {
        StartsWithJoin(od, ac, DetailsMarker);
        StartsDiffer(rest, DetailsMarker, ColorMarker, 0);
      } else {
        assert rest == ac;
        StartsDiffer(rest, AspectMarker, ColorMarker, 0);
      }
    }
  }

  lemma DetailsMarkerAfter(head: string, od: string, ac: string, on: bool)
    requires on ==> StartsWith(od, DetailsMarker)
    requires !on ==> od == ""
    requires StartsWith(ac, AspectMarker)
    ensures (head + od + ac)[|head|..] == od + ac
    ensures on <==> StartsWith(od + ac, DetailsMarker)
    ensures on ==> StartsWith(od + ac, od)
    ensures !on ==> od + ac == ac
  {
    assert (head + od + ac)[|head|..] == od + ac;
    PrefixOfConcat(od, ac);
    if on {
      StartsWithTrans(od + ac, od, DetailsMarker);
    } else {
      assert od + ac == ac;
      StartsDiffer(od + ac, AspectMarker, DetailsMarker, 1);
    }
  }

  /** Right after the style clause the prompt continues with the colour
      marker exactly when a truthy colour scheme was given, and then it is
      the whole colour clause for that scheme. */
  lemma ColorClauseIff(t: Tables, title: Field, userPrompt: Field, style: Field, aspectRatio: Field, colorScheme: Field)
    ensures var p := Prompt(t, title, userPrompt, style, aspectRatio, colorScheme);
      var after := p[|StyleClause(t, title, style)|..];
      (Truthy(colorScheme) <==> StartsWith(after, ColorMarker)) &&
      (Truthy(colorScheme) ==> StartsWith(after, ColorClause(t, colorScheme.value)))
  {
    if Truthy(colorScheme) {
      ColorClauseStart(t, colorScheme.value);
    }
    if Truthy(userPrompt) {
      DetailsClauseStart(userPrompt.value);
    }
    AspectClauseStart(aspectRatio);
    ColorMarkerAfter(StyleClause(t, title, style), OptColor(t, colorScheme), OptDetails(userPrompt),
                     AspectClause(aspectRatio), Truthy(colorScheme));
  }

  /** After the style and colour clauses the prompt continues with the
      details marker exactly when truthy free text was given, and otherwise
      goes straight on to the aspect clause. */
  lemma DetailsClauseIff(t: Tables, title: Field, userPrompt: Field, style: Field, aspectRatio: Field, colorScheme: Field)
    ensures var p := Prompt(t, title, userPrompt, style, aspectRatio, colorScheme);
      var after := p[|StyleClause(t, title, style)| + |OptColor(t, colorScheme)|..];
      (Truthy(userPrompt) <==> StartsWith(after, DetailsMarker)) &&
      (Truthy(userPrompt) ==> StartsWith(after, DetailsClause(userPrompt.value))) &&
      (!Truthy(userPrompt) ==> after == AspectClause(aspectRatio))
  {
    if Truthy(userPrompt) {
      DetailsClauseStart(userPrompt.value);
    }
    AspectClauseStart(aspectRatio);
    var sc, oc := StyleClause(t, title, style), OptColor(t, colorScheme);
    DetailsMarkerAfter(sc + oc, OptDetails(userPrompt), AspectClause(aspectRatio), Truthy(userPrompt));
    assert |sc + oc| == |sc| + |oc|;
  }

  /** A known style puts its table description into the opening clause;
      an unknown or absent style puts the text "undefined" there. */
  lemma StyleDescriptionLookup(style: Field)
    ensures style.Some? && style.value in StylePrompts ==> StyleDescription(Descriptions, style) == StylePrompts[style.value]
    ensures style.None? || style.value !in StylePrompts ==> StyleDescription(Descriptions, style) == "undefined"
  {
    if style.None? {
      assert "undefined" !in StylePrompts by {
        assert "undefined" != "Minimalist";
      }
    }
  }

  /** A truthy colour scheme that names a table entry puts that entry's
      description into the colour clause; any other puts "undefined" there. */
  lemma ColorDescriptionLookup(colorScheme: string)
    ensures colorScheme in ColorSchemesDescriptions ==>
      ColorDescription(Descriptions, colorScheme) == ColorSchemesDescriptions[colorScheme]
    ensures colorScheme !in ColorSchemesDescriptions ==> ColorDescription(Descriptions, colorScheme) == "undefined"
  {
  }

  /** "My Video" in the Minimalist style, no colour scheme, no free text, 16:9:
      the style clause carries the Minimalist description and is followed at
      once by the aspect clause for "16:9". */
  lemma MinimalistScenario()
    ensures Prompt(Descriptions, Some("My Video"), None, Some("Minimalist"), Some("16:9"), None) ==
      StyleClause(Descriptions, Some("My Video"), Some("Minimalist")) + AspectClause(Some("16:9"))
    ensures StyleDescription(Descriptions, Some("Minimalist")) == StylePrompts["Minimalist"]
  {
    assert "Minimalist" in StylePrompts;
    var sc := StyleClause(Descriptions, Some("My Video"), Some("Minimalist"));
    assert OptColor(Descriptions, None) == "" && OptDetails(None) == "";
    AppendEmpty(sc);
    AppendEmpty(sc + "");
  }
}
