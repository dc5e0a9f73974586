/** The sanitisers and validation schemas of the card API: `sanitizeUrl`,
    `sanitizeText`, the social-link schema, the card creation schema, its
    partial (update) form and the view-tracking schema.
    Each schema is a function from an untyped JSON body to a `Parsed`
    value; issues are listed in the order the schema declares its keys. */
module ZodSchemas {
  import opened Zod
  import opened Text

  // ---------------------------------------------------------------------
  // Sanitisers
  // ---------------------------------------------------------------------

  predicate HasWebScheme(s: string)
  {
    StartsWith(s, "http://") || StartsWith(s, "https://")
  }

  /** `url.trim().toLowerCase()`, the form `sanitizeUrl` inspects. */
  function Normalized(url: string): string
  {
    Lower(Trim(url))
  }

  /** `sanitizeUrl`: trim and lower-case, then add `https://` unless the
      result already names the http or https scheme. */
  function SanitizeUrl(url: string): (r: string)
    ensures HasWebScheme(r)
  {
    var n := Normalized(url);
    if !StartsWith(n, "http://") && !StartsWith(n, "https://") then
      StartsWithConcat("https://", n);
      "https://" + n
    else
      n
  }

  /** The result of `sanitizeUrl` is in normal form: trimmed and
      lower-cased already. */
  lemma SanitizeUrlNormalForm(url: string)
    ensures NoEdgeSpace(SanitizeUrl(url)) && IsLowered(SanitizeUrl(url))
  {
    var n := Normalized(url);
    LowerResult(Trim(url));
    if !StartsWith(n, "http://") && !StartsWith(n, "https://") {
      HttpsIsNormal();
      LoweredConcat("https://", n);
      var r := "https://" + n;
      assert r[0] == 'h';
      assert n != [] ==> r[|r| - 1] == n[|n| - 1];
    }
  }

  lemma HttpsIsNormal()
    ensures IsLowered("https://")
  {
    var p := "https://";
    assert p[0] == 'h' && p[1] == 't' && p[2] == 't' && p[3] == 'p';
    assert p[4] == 's' && p[5] == ':' && p[6] == '/' && p[7] == '/';
  }

  /** An input whose normal form already carries a scheme is returned in
      that normal form, with no second prefix; otherwise exactly one
      `https://` is put in front. */
  lemma SanitizeUrlPrefix(url: string)
    ensures HasWebScheme(Normalized(url)) ==> SanitizeUrl(url) == Normalized(url)
    ensures !HasWebScheme(Normalized(url)) ==> SanitizeUrl(url) == "https://" + Normalized(url)
  {
  }

  lemma SanitizeUrlIdempotent(url: string)
    ensures SanitizeUrl(SanitizeUrl(url)) == SanitizeUrl(url)
  {
    var r := SanitizeUrl(url);
    SanitizeUrlNormalForm(url);
    TrimKeepsTrimmed(r);
    LowerKeepsLowered(r);
    assert Normalized(r) == r;
  }

  /** `sanitizeText`: trim, then drop every `<` and `>`. */
  function SanitizeText(text: string): (r: string)
    ensures forall i :: 0 <= i < |r| ==> !IsBracket(r[i])
    ensures |r| <= |text|
  {
    StripBrackets(Trim(text))
  }

  /** `sanitizeText` only removes characters. */
  lemma SanitizeTextChars(text: string)
    ensures forall c :: c in SanitizeText(text) ==> c in text
  {
    TrimChars(text);
    StripBracketsChars(Trim(text));
  }

  /** Trimming comes before bracket removal, so a second pass can trim
      more: `sanitizeText` is not idempotent. */
  lemma SanitizeTextNotIdempotent()
    ensures SanitizeText("< a") == " a"
    ensures SanitizeText(SanitizeText("< a")) == "a"
    ensures SanitizeText(SanitizeText("< a")) != SanitizeText("< a")
  {
    TrimKeepsTrimmed("< a");
    StripLtSpaceA();
    TrimSpaceA();
    assert StripBrackets("a") == "a" by {
      assert StripBrackets("a") == ['a'] + StripBrackets("");
    }
  }

  lemma StripLtSpaceA()
    ensures StripBrackets("< a") == " a"
  {
    assert StripBrackets("< a") == StripBrackets(" a");
    assert StripBrackets(" a") == [' '] + StripBrackets("a");
    assert StripBrackets("a") == ['a'] + StripBrackets("");
  }

  lemma TrimSpaceA()
    ensures Trim(" a") == "a"
  {
    TrimStartDropsSpace(' ', "a");
    assert [' '] + "a" == " a";
    TrimKeepsTrimmed("a");
  }

  /** Brackets inside the text are dropped and the rest is kept:
      `"a<b"` sanitises to `"ab"`. */
  lemma SanitizeTextInnerBracket()
    ensures SanitizeText("a<b") == "ab"
  {
    TrimKeepsTrimmed("a<b");
    assert "a<b" == ['a'] + ['<'] + ['b'];
    StripBracketsConcat(['a'] + ['<'], ['b']);
    StripBracketsConcat(['a'], ['<']);
    StripBracketsChar('a');
    StripBracketsChar('<');
    StripBracketsChar('b');
  }

  /** On text without angle brackets `sanitizeText` is `trim`, and then it
      is idempotent. */
  lemma SanitizeTextWithoutBrackets(text: string)
    requires forall i :: 0 <= i < |text| ==> !IsBracket(text[i])
    ensures SanitizeText(text) == Trim(text)
    ensures SanitizeText(SanitizeText(text)) == SanitizeText(text)
  {
    var t := Trim(text);
    TrimChars(text);
    forall i | 0 <= i < |t| ensures !IsBracket(t[i]) {
      assert t[i] in t;
    }
    TrimKeepsTrimmed(t);
  }

  // ---------------------------------------------------------------------
  // The French phone pattern /^(\+33|0)[1-9](\d{2}){4}$/
  // ---------------------------------------------------------------------

  predicate IsDigit(c: char)
  {
    '0' <= c <= '9'
  }

  predicate IsNonZeroDigit(c: char)
  {
    '1' <= c <= '9'
  }

  predicate AllDigits(s: string)
  {
    forall i :: 0 <= i < |s| ==> IsDigit(s[i])
  }

  /** `(\d{2}){n}` matching the whole of `s`. */
  predicate DigitPairs(s: string, n: nat)
    decreases n
  {
    if n == 0 then s == []
    else |s| >= 2 && IsDigit(s[0]) && IsDigit(s[1]) && DigitPairs(s[2..], n - 1)
  }

  /** `prefix[1-9](\d{2}){4}` matching the whole of `s`. */
  predicate PhoneAfter(s: string, prefix: string)
  {
    StartsWith(s, prefix) && |s| > |prefix| && IsNonZeroDigit(s[|prefix|])
    && DigitPairs(s[|prefix| + 1..], 4)
  }

  predicate MatchesPhonePattern(s: string)
  {
    PhoneAfter(s, "+33") || PhoneAfter(s, "0")
  }

  lemma {:induction false} DigitPairsExact(s: string, n: nat)
    ensures DigitPairs(s, n) <==> |s| == 2 * n && AllDigits(s)
    decreases n
  {
    if n > 0 && |s| >= 2 {
      DigitPairsExact(s[2..], n - 1);
      assert AllDigits(s) <==> IsDigit(s[0]) && IsDigit(s[1]) && AllDigits(s[2..]) by {
        if IsDigit(s[0]) && IsDigit(s[1]) && AllDigits(s[2..]) {
          forall i | 0 <= i < |s| ensures IsDigit(s[i]) {
            if i >= 2 { assert s[i] == s[2..][i - 2]; }
          }
        }
        if AllDigits(s) {
          forall i | 0 <= i < |s[2..]| ensures IsDigit(s[2..][i]) {
            assert s[2..][i] == s[i + 2];
          }
        }
      }
    } else if n > 0 {
      assert !DigitPairs(s, n);
    }
  }

  /** A phone is accepted exactly when it is `+33` followed by a digit 1-9
      and eight digits (twelve characters), or `0` followed by a digit 1-9
      and eight digits (ten characters). */
  lemma PhonePatternExact(s: string)
    ensures MatchesPhonePattern(s) <==>
      (|s| == 12 && s[..3] == "+33" && IsNonZeroDigit(s[3]) && AllDigits(s[4..]))
      || (|s| == 10 && s[0] == '0' && IsNonZeroDigit(s[1]) && AllDigits(s[2..]))
  {
    if |s| >= 4 { DigitPairsExact(s[4..], 4); }
    if |s| >= 2 { DigitPairsExact(s[2..], 4); }
  }

  /** A phone that matches the pattern is left as it is by `sanitizeText`. */
  lemma PhoneUnchangedBySanitizer(s: string)
    requires MatchesPhonePattern(s)
    ensures SanitizeText(s) == s
  {
    PhonePatternExact(s);
    var k := if PhoneAfter(s, "+33") then 4 else 2;
    assert forall i :: 0 <= i < |s| ==> !IsBracket(s[i]) by {
      forall i | 0 <= i < |s| ensures !IsBracket(s[i]) {
        if i >= k { assert s[i] == s[k..][i - k]; }
        else if k == 4 && i < 3 { assert s[i] == s[..3][i]; }
      }
    }
    assert s[|s| - 1] == s[k..][|s| - 1 - k];
    TrimKeepsTrimmed(s);
  }

  // ---------------------------------------------------------------------
  // Validated shapes
  // ---------------------------------------------------------------------

  datatype Theme = Default | Dark | Light

  function ThemeName(t: Theme): string
  {
    match t
    case Default => "default"
    case Dark => "dark"
    case Light => "light"
  }

  datatype SocialLink = SocialLink(platform: string, url: string)

  /** The validated card fields other than the social links. */
  datatype CardData = CardData(
    name: string,
    position: string,
    company: string,
    email: string,
    phone: Option<string>,
    website: Option<string>,
    logo: Option<Json>,
    theme: Theme)

  /** The output of the creation schema. */
  datatype CardInput = CardInput(card: CardData, socialLinks: seq<SocialLink>)

  /** The output of the update schema: `None` is an absent key. */
  datatype CardPatch = CardPatch(
    name: Option<string>,
    position: Option<string>,
    company: Option<string>,
    email: Option<string>,
    phone: Option<string>,
    website: Option<string>,
    logo: Option<Json>,
    theme: Option<Theme>,
    socialLinks: Option<seq<SocialLink>>)

  // ---------------------------------------------------------------------
  // Messages and limits
  // ---------------------------------------------------------------------

  const MaxTextLength := 100
  const PlatformRequired := "La plateforme est requise"
  const UrlInvalid := "URL invalide"
  const NameRequired := "Le nom est requis"
  const NameTooLong := "Le nom ne doit pas dépasser 100 caractères"
  const PositionRequired := "Le poste est requis"
  const PositionTooLong := "Le poste ne doit pas dépasser 100 caractères"
  const CompanyRequired := "L'entreprise est requise"
  const CompanyTooLong := "L'entreprise ne doit pas dépasser 100 caractères"
  const EmailInvalid := "Email invalide"
  const PhoneInvalid := "Numéro de téléphone invalide"
  const CardIdRequired := "ID de carte requis"
  const ThemeOptions := "'default' | 'dark' | 'light'"

  /** The keys the card schemas declare. */
  const CardKeys: set<string> :=
    {"name", "position", "company", "email", "phone", "website", "logo", "theme", "socialLinks"}

  // ---------------------------------------------------------------------
  // Field schemas
  // ---------------------------------------------------------------------

  /** `.optional()` (and the wrapper `.partial()` puts on each key): an
      absent key is accepted as absent without running the inner schema. */
  function Optional<T>(v: Json, inner: Parsed<T>): (p: Parsed<Option<T>>)
    requires Reported(inner)
    ensures Reported(p)
    ensures v == Undefined ==> p == Success(None)
    ensures v != Undefined ==> (p.Success? <==> inner.Success?)
    ensures v != Undefined && inner.Success? ==> p.data == Some(inner.data)
    ensures v != Undefined && inner.Failure? ==> p.issues == inner.issues
  {
    if v == Undefined then Success(None)
    else match inner
      case Success(x) => Success(Some(x))
      case Failure(issues) => Failure(issues)
  }

  /** On a present key `.optional()` changes nothing but the wrapping. */
  lemma OptionalPresent<T>(v: Json, inner: Parsed<T>)
    requires v != Undefined && Reported(inner)
    ensures Optional(v, inner).Success? == inner.Success?
    ensures IssuesOf(Optional(v, inner)) == IssuesOf(inner)
    ensures inner.Success? ==> Optional(v, inner).data == Some(inner.data)
  {
  }

  /** `z.string().min(1, minMsg).max(100, maxMsg).transform(sanitizeText)`:
      the bounds apply to the raw string, before it is sanitised. */
  function BoundedText(v: Json, minMsg: string, maxMsg: string): (p: Parsed<string>)
    ensures Reported(p)
    ensures p.Success? <==> v.JString? && 1 <= |v.s| <= MaxTextLength
    ensures p.Success? ==> p.data == SanitizeText(v.s)
    ensures v.JString? && |v.s| < 1 ==> p.issues == [Issue(minMsg)]
    ensures v.JString? && |v.s| > MaxTextLength ==> p.issues == [Issue(maxMsg)]
    ensures !v.JString? ==> p.issues == [InvalidType("string", v)]
  {
    match StringValue(v)
    case Failure(issues) => Failure(issues)
    case Success(s) =>
      var issues := (if |s| < 1 then [Issue(minMsg)] else [])
        + (if |s| > MaxTextLength then [Issue(maxMsg)] else []);
      if issues == [] then Success(SanitizeText(s)) else Failure(issues)
  }

  /** `z.string().min(1, 'La plateforme est requise').transform(sanitizeText)`. */
  function PlatformField(v: Json): (p: Parsed<string>)
    ensures Reported(p)
    ensures p.Success? <==> v.JString? && |v.s| >= 1
    ensures p.Success? ==> p.data == SanitizeText(v.s)
    ensures v.JString? && |v.s| < 1 ==> p.issues == [Issue(PlatformRequired)]
  {
    match StringValue(v)
    case Failure(issues) => Failure(issues)
    case Success(s) => if |s| < 1 then Failure([Issue(PlatformRequired)]) else Success(SanitizeText(s))
  }

  /** `z.string().url('URL invalide').transform(sanitizeUrl)`: the library's
      URL check sees the raw string, the sanitiser runs after it. */
  function UrlField(v: Json, checks: Checks): (p: Parsed<string>)
    ensures Reported(p)
    ensures p.Success? <==> v.JString? && checks.isUrl(v.s)
    ensures p.Success? ==> p.data == SanitizeUrl(v.s) && HasWebScheme(p.data)
    ensures v.JString? && !checks.isUrl(v.s) ==> p.issues == [Issue(UrlInvalid)]
  {
    match StringValue(v)
    case Failure(issues) => Failure(issues)
    case Success(s) => if checks.isUrl(s) then Success(SanitizeUrl(s)) else Failure([Issue(UrlInvalid)])
  }

  /** `z.string().email('Email invalide').transform(sanitizeText)`. */
  function EmailField(v: Json, checks: Checks): (p: Parsed<string>)
    ensures Reported(p)
    ensures p.Success? <==> v.JString? && checks.isEmail(v.s)
    ensures p.Success? ==> p.data == SanitizeText(v.s)
    ensures v.JString? && !checks.isEmail(v.s) ==> p.issues == [Issue(EmailInvalid)]
  {
    match StringValue(v)
    case Failure(issues) => Failure(issues)
    case Success(s) => if checks.isEmail(s) then Success(SanitizeText(s)) else Failure([Issue(EmailInvalid)])
  }

  /** `z.string().regex(phone).optional().transform(t => t ? sanitizeText(t) : undefined)`:
      an absent phone stays absent, a present one is accepted exactly when
      it matches the pattern, and is then stored as given. */
  function PhoneField(v: Json): (p: Parsed<Option<string>>)
    ensures Reported(p)
    ensures p.Success? <==> v == Undefined || (v.JString? && MatchesPhonePattern(v.s))
    ensures v == Undefined ==> p == Success(None)
    ensures v.JString? && MatchesPhonePattern(v.s) ==> p == Success(Some(v.s))
    ensures v.JString? && !MatchesPhonePattern(v.s) ==> p.issues == [Issue(PhoneInvalid)]
  {
    if v == Undefined then Success(None)
    else if !v.JString? then Failure([InvalidType("string", v)])
    else if !MatchesPhonePattern(v.s) then Failure([Issue(PhoneInvalid)])
    else Success(PhoneTransform(v.s))
  }

  /** The phone schema's transform `text ? sanitizeText(text) : undefined`
      on a string that passed the pattern. */
  function PhoneTransform(s: string): (r: Option<string>)
    requires MatchesPhonePattern(s)
    ensures r == Some(s)
  {
    assert |s| > 1;
    var t := SanitizeText(s);
    PhoneUnchangedBySanitizer(s);
    if s != "" then Some(t) else None
  }

  /** `z.any().optional()`: any present value is kept as it is. */
  function LogoField(v: Json): (p: Parsed<Option<Json>>)
    ensures p.Success?
    ensures p.data.None? <==> v == Undefined
    ensures p.data.Some? ==> p.data.value == v
  {
    if v == Undefined then Success(None) else Success(Some(v))
  }

  /** `z.enum(['default', 'dark', 'light'])`. */
  function ThemeEnum(v: Json): (p: Parsed<Theme>)
    ensures Reported(p)
    ensures p.Success? <==> v.JString? && v.s in {"default", "dark", "light"}
    ensures p.Success? ==> ThemeName(p.data) == v.s
  {
    if !v.JString? then Failure([InvalidType(ThemeOptions, v)])
    else if v.s == "default" then Success(Default)
    else if v.s == "dark" then Success(Dark)
    else if v.s == "light" then Success(Light)
    else Failure([Issue("Invalid enum value. Expected " + ThemeOptions + ", received '" + v.s + "'")])
  }

  /** `z.enum([...]).default('default')`. */
  function ThemeField(v: Json): (p: Parsed<Theme>)
    ensures Reported(p)
    ensures v == Undefined ==> p == Success(Default)
    ensures v != Undefined ==> p == ThemeEnum(v)
  {
    if v == Undefined then Success(Default) else ThemeEnum(v)
  }

  /** `socialLinkSchema`. */
  function SocialLinkItem(v: Json, checks: Checks): (p: Parsed<SocialLink>)
    ensures Reported(p)
    ensures p.Success? <==>
      v.JObject? && PlatformField(Get(v.fields, "platform")).Success?
      && UrlField(Get(v.fields, "url"), checks).Success?
    ensures p.Success? ==>
      p.data.platform == SanitizeText(Get(v.fields, "platform").s)
      && p.data.url == SanitizeUrl(Get(v.fields, "url").s)
    ensures (v.JObject? && PlatformField(Get(v.fields, "platform")).Failure?) ==>
      ReportsFirst(p, PlatformField(Get(v.fields, "platform")))
    ensures (v.JObject? && PlatformField(Get(v.fields, "platform")).Success?
             && UrlField(Get(v.fields, "url"), checks).Failure?) ==>
      ReportsFirst(p, UrlField(Get(v.fields, "url"), checks))
    ensures !v.JObject? ==> p == Failure([InvalidType("object", v)])
  {
    if !v.JObject? then Failure([InvalidType("object", v)])
    else
      var platform := PlatformField(Get(v.fields, "platform"));
      var url := UrlField(Get(v.fields, "url"), checks);
      if platform.Success? && url.Success? then Success(SocialLink(platform.data, url.data))
      else Failure(IssuesOf(platform) + IssuesOf(url))
  }

  /** The elements of `z.array(socialLinkSchema)`: accepted when every item
      is, and then the items' validated values in order. */
  function SocialLinkList(items: seq<Json>, checks: Checks): (p: Parsed<seq<SocialLink>>)
    ensures Reported(p)
    ensures p.Success? <==> forall i :: 0 <= i < |items| ==> SocialLinkItem(items[i], checks).Success?
    ensures p.Success? ==>
      |p.data| == |items|
      && forall i :: 0 <= i < |items| ==> p.data[i] == SocialLinkItem(items[i], checks).data
    ensures forall k :: (0 <= k < |items| && SocialLinkItem(items[k], checks).Failure?
                         && (forall j :: 0 <= j < k ==> SocialLinkItem(items[j], checks).Success?)) ==>
      ReportsFirst(p, SocialLinkItem(items[k], checks))
  {
    var ps := seq(|items|, i requires 0 <= i < |items| => SocialLinkItem(items[i], checks));
    assert forall i :: 0 <= i < |items| ==> ps[i] == SocialLinkItem(items[i], checks);
    Collect(ps)
  }

  /** `z.array(socialLinkSchema)`. */
  function SocialLinksArray(v: Json, checks: Checks): (p: Parsed<seq<SocialLink>>)
    ensures Reported(p)
    ensures p.Success? <==> v.JArray? && SocialLinkList(v.items, checks).Success?
    ensures p.Success? ==> p == SocialLinkList(v.items, checks)
    ensures v.JArray? ==> p == SocialLinkList(v.items, checks)
    ensures !v.JArray? ==> p == Failure([InvalidType("array", v)])
  {
    if v.JArray? then SocialLinkList(v.items, checks) else Failure([InvalidType("array", v)])
  }

  /** `z.array(socialLinkSchema).default([])`. */
  function SocialLinksField(v: Json, checks: Checks): (p: Parsed<seq<SocialLink>>)
    ensures Reported(p)
    ensures v == Undefined ==> p == Success([])
    ensures v != Undefined ==> p == SocialLinksArray(v, checks)
  {
    if v == Undefined then Success([]) else SocialLinksArray(v, checks)
  }

  /** A links array whose first item has an empty platform is rejected
      with the platform's message first, whatever its url and the other
      items hold. */
  lemma LinkPlatformReportedFirst(v: Json, checks: Checks)
    requires v.JArray? && |v.items| > 0 && v.items[0].JObject?
    requires Get(v.items[0].fields, "platform") == JString("")
    ensures SocialLinksArray(v, checks).Failure?
    ensures SocialLinksArray(v, checks).issues[0] == Issue(PlatformRequired)
  {
    assert SocialLinkItem(v.items[0], checks).issues[0] == Issue(PlatformRequired);
  }

  /** Every validated social link carries a web scheme and a platform
      without angle brackets. */
  lemma ValidatedLinksAreClean(v: Json, checks: Checks)
    requires SocialLinksArray(v, checks).Success?
    ensures forall l :: l in SocialLinksArray(v, checks).data ==>
      HasWebScheme(l.url) && forall i :: 0 <= i < |l.platform| ==> !IsBracket(l.platform[i])
  {
    var links := SocialLinksArray(v, checks).data;
    forall l | l in links
      ensures HasWebScheme(l.url) && forall i :: 0 <= i < |l.platform| ==> !IsBracket(l.platform[i])
    {
      var k :| 0 <= k < |links| && links[k] == l;
      assert SocialLinkItem(v.items[k], checks).Success?;
    }
  }

  // ---------------------------------------------------------------------
  // Object schemas
  // ---------------------------------------------------------------------

  /** `createCardSchema`. */
  function CreateCard(body: Json, checks: Checks): (p: Parsed<CardInput>)
    ensures Reported(p)
    ensures p.Success? ==> body.JObject?
  {
    if !body.JObject? then Failure([InvalidType("object", body)])
    else
      var f := body.fields;
      var name := BoundedText(Get(f, "name"), NameRequired, NameTooLong);
      var position := BoundedText(Get(f, "position"), PositionRequired, PositionTooLong);
      var company := BoundedText(Get(f, "company"), CompanyRequired, CompanyTooLong);
      var email := EmailField(Get(f, "email"), checks);
      var phone := PhoneField(Get(f, "phone"));
      var website := Optional(Get(f, "website"), UrlField(Get(f, "website"), checks));
      var logo := LogoField(Get(f, "logo"));
      var theme := ThemeField(Get(f, "theme"));
      var links := SocialLinksField(Get(f, "socialLinks"), checks);
      if name.Success? && position.Success? && company.Success? && email.Success?
        && phone.Success? && website.Success? && theme.Success? && links.Success?
      then
        Success(CardInput(
          CardData(name.data, position.data, company.data, email.data,
                   phone.data, website.data, logo.data, theme.data),
          links.data))
      else
        Failure(IssuesOf(name) + IssuesOf(position) + IssuesOf(company) + IssuesOf(email)
          + IssuesOf(phone) + IssuesOf(website) + IssuesOf(theme) + IssuesOf(links))
  }

  /** `updateCardSchema = createCardSchema.partial()`: every key may be
      absent, and an absent key is not given its default. An absent
      `phone`, `website` or `logo` is already accepted as absent by the
      field's own schema. */
  function UpdateCard(body: Json, checks: Checks): (p: Parsed<CardPatch>)
    ensures Reported(p)
    ensures p.Success? ==> body.JObject?
  {
    if !body.JObject? then Failure([InvalidType("object", body)])
    else
      var f := body.fields;
      var name := Optional(Get(f, "name"), BoundedText(Get(f, "name"), NameRequired, NameTooLong));
      var position := Optional(Get(f, "position"), BoundedText(Get(f, "position"), PositionRequired, PositionTooLong));
      var company := Optional(Get(f, "company"), BoundedText(Get(f, "company"), CompanyRequired, CompanyTooLong));
      var email := Optional(Get(f, "email"), EmailField(Get(f, "email"), checks));
      var phone := PhoneField(Get(f, "phone"));
      var website := Optional(Get(f, "website"), UrlField(Get(f, "website"), checks));
      var logo := LogoField(Get(f, "logo"));
      var theme := Optional(Get(f, "theme"), ThemeEnum(Get(f, "theme")));
      var links := Optional(Get(f, "socialLinks"), SocialLinksArray(Get(f, "socialLinks"), checks));
      if name.Success? && position.Success? && company.Success? && email.Success?
        && phone.Success? && website.Success? && theme.Success? && links.Success?
      then
        Success(CardPatch(name.data, position.data, company.data, email.data,
                          phone.data, website.data, logo.data, theme.data, links.data))
      else
        Failure(IssuesOf(name) + IssuesOf(position) + IssuesOf(company) + IssuesOf(email)
          + IssuesOf(phone) + IssuesOf(website) + IssuesOf(theme) + IssuesOf(links))
  }

  /** `trackViewSchema`: a non-empty string `cardId`. */
  function TrackView(body: Json): (p: Parsed<string>)
    ensures Reported(p)
    ensures p.Success? <==>
      body.JObject? && Get(body.fields, "cardId").JString? && |Get(body.fields, "cardId").s| >= 1
    ensures p.Success? ==> p.data == Get(body.fields, "cardId").s
    ensures body.JObject? && Get(body.fields, "cardId") == JString("") ==> p.issues == [Issue(CardIdRequired)]
  {
    if !body.JObject? then Failure([InvalidType("object", body)])
    else match StringValue(Get(body.fields, "cardId"))
      case Failure(issues) => Failure(issues)
      case Success(id) => if |id| < 1 then Failure([Issue(CardIdRequired)]) else Success(id)
  }

  // ---------------------------------------------------------------------
  // Properties of the card schemas
  // ---------------------------------------------------------------------

  /** name, position and company are accepted only as raw strings of 1 to
      100 characters, and are stored sanitised. */
  lemma CreateTextBounds(body: Json, checks: Checks)
    requires CreateCard(body, checks).Success?
    ensures var f := body.fields; var c := CreateCard(body, checks).data.card;
      && Get(f, "name").JString? && 1 <= |Get(f, "name").s| <= MaxTextLength
      && c.name == SanitizeText(Get(f, "name").s)
      && Get(f, "position").JString? && 1 <= |Get(f, "position").s| <= MaxTextLength
      && c.position == SanitizeText(Get(f, "position").s)
      && Get(f, "company").JString? && 1 <= |Get(f, "company").s| <= MaxTextLength
      && c.company == SanitizeText(Get(f, "company").s)
  {
  }

  /** The length check runs before sanitising, so a name of whitespace
      only passes and is stored as the empty string. */
  lemma {:induction false} BlankNameStoredEmpty(s: string)
    requires 1 <= |s| <= MaxTextLength
    requires forall i :: 0 <= i < |s| ==> IsSpace(s[i])
    ensures BoundedText(JString(s), NameRequired, NameTooLong) == Success("")
  {
    TrimAllSpace(s);
    assert StripBrackets("") == "";
  }

  /** The phone of a created card is absent when the key is absent, and
      otherwise is the given string, in one of the two exact formats. */
  lemma CreatePhone(body: Json, checks: Checks)
    requires CreateCard(body, checks).Success?
    ensures var v := Get(body.fields, "phone"); var c := CreateCard(body, checks).data.card;
      && (v == Undefined ==> c.phone == None)
      && (v != Undefined ==>
            v.JString? && c.phone == Some(v.s)
            && ((|v.s| == 12 && v.s[..3] == "+33" && IsNonZeroDigit(v.s[3]) && AllDigits(v.s[4..]))
                || (|v.s| == 10 && v.s[0] == '0' && IsNonZeroDigit(v.s[1]) && AllDigits(v.s[2..]))))
  {
    var v := Get(body.fields, "phone");
    if v.JString? { PhonePatternExact(v.s); }
  }

  /** Creation defaults: theme `default` when absent and otherwise the
      given enum value; social links `[]` when absent; a present website is
      sanitised. */
  lemma CreateDefaults(body: Json, checks: Checks)
    requires CreateCard(body, checks).Success?
    ensures var f := body.fields; var d := CreateCard(body, checks).data;
      && (Get(f, "theme") == Undefined ==> d.card.theme == Default)
      && (Get(f, "theme") != Undefined ==> Get(f, "theme") == JString(ThemeName(d.card.theme)))
      && (Get(f, "socialLinks") == Undefined ==> d.socialLinks == [])
      && (Get(f, "website") == Undefined <==> d.card.website == None)
      && (Get(f, "website") != Undefined ==>
            Get(f, "website").JString? && d.card.website == Some(SanitizeUrl(Get(f, "website").s)))
      && (d.card.website.Some? ==> HasWebScheme(d.card.website.value))
  {
  }

  /** The other stored values of a created card: the email sanitised, the
      logo as given, and present social links as the array schema
      validated them. */
  lemma CreateValues(body: Json, checks: Checks)
    requires CreateCard(body, checks).Success?
    ensures var f := body.fields; var d := CreateCard(body, checks).data;
      && Get(f, "email").JString? && d.card.email == SanitizeText(Get(f, "email").s)
      && (Get(f, "logo") == Undefined ==> d.card.logo == None)
      && (Get(f, "logo") != Undefined ==> d.card.logo == Some(Get(f, "logo")))
      && (Get(f, "socialLinks") != Undefined ==>
            SocialLinksArray(Get(f, "socialLinks"), checks).Success?
            && d.socialLinks == SocialLinksArray(Get(f, "socialLinks"), checks).data)
  {
  }

  /** A body is accepted for creation exactly when it is an object and each
      declared key passes its own schema. */
  lemma CreateAccepts(body: Json, checks: Checks)
    ensures CreateCard(body, checks).Success? <==>
      body.JObject?
      && BoundedText(Get(body.fields, "name"), NameRequired, NameTooLong).Success?
      && BoundedText(Get(body.fields, "position"), PositionRequired, PositionTooLong).Success?
      && BoundedText(Get(body.fields, "company"), CompanyRequired, CompanyTooLong).Success?
      && EmailField(Get(body.fields, "email"), checks).Success?
      && PhoneField(Get(body.fields, "phone")).Success?
      && (Get(body.fields, "website") == Undefined || UrlField(Get(body.fields, "website"), checks).Success?)
      && ThemeField(Get(body.fields, "theme")).Success?
      && SocialLinksField(Get(body.fields, "socialLinks"), checks).Success?
  {
  }

  /** Keys the schema does not declare (a client-sent `userId`, say) have
      no influence on the result. */
  lemma UnknownKeyIgnored(fields: map<string, Json>, key: string, v: Json, checks: Checks)
    requires key !in CardKeys
    ensures CreateCard(JObject(fields[key := v]), checks) == CreateCard(JObject(fields), checks)
    ensures UpdateCard(JObject(fields[key := v]), checks) == UpdateCard(JObject(fields), checks)
  {
    var g := fields[key := v];
    forall k | k in CardKeys ensures Get(g, k) == Get(fields, k) {
      assert k != key;
    }
    assert Get(g, "name") == Get(fields, "name") && Get(g, "position") == Get(fields, "position");
    assert Get(g, "company") == Get(fields, "company") && Get(g, "email") == Get(fields, "email");
    assert Get(g, "phone") == Get(fields, "phone") && Get(g, "website") == Get(fields, "website");
    assert Get(g, "logo") == Get(fields, "logo") && Get(g, "theme") == Get(fields, "theme");
    assert Get(g, "socialLinks") == Get(fields, "socialLinks");
  }

  /** The update schema leaves every absent key absent. */
  lemma UpdateAbsentKeys(body: Json, checks: Checks)
    requires UpdateCard(body, checks).Success?
    ensures var f := body.fields; var p := UpdateCard(body, checks).data;
      && (Get(f, "name") == Undefined <==> p.name == None)
      && (Get(f, "position") == Undefined <==> p.position == None)
      && (Get(f, "company") == Undefined <==> p.company == None)
      && (Get(f, "email") == Undefined <==> p.email == None)
      && (Get(f, "phone") == Undefined <==> p.phone == None)
      && (Get(f, "website") == Undefined <==> p.website == None)
      && (Get(f, "logo") == Undefined <==> p.logo == None)
      && (Get(f, "theme") == Undefined <==> p.theme == None)
      && (Get(f, "socialLinks") == Undefined <==> p.socialLinks == None)
  {
  }

  /** A key the update body gives is validated as on creation and written
      with the value creation would store. */
  lemma UpdatePresentKeys(body: Json, checks: Checks)
    requires UpdateCard(body, checks).Success?
    ensures var f := body.fields; var p := UpdateCard(body, checks).data;
      && (Get(f, "name") != Undefined ==>
            Get(f, "name").JString? && p.name == Some(SanitizeText(Get(f, "name").s)))
      && (Get(f, "position") != Undefined ==>
            Get(f, "position").JString? && p.position == Some(SanitizeText(Get(f, "position").s)))
      && (Get(f, "company") != Undefined ==>
            Get(f, "company").JString? && p.company == Some(SanitizeText(Get(f, "company").s)))
      && (Get(f, "email") != Undefined ==>
            Get(f, "email").JString? && p.email == Some(SanitizeText(Get(f, "email").s)))
      && (Get(f, "phone") != Undefined ==>
            Get(f, "phone").JString? && p.phone == Some(Get(f, "phone").s))
      && (Get(f, "website") != Undefined ==>
            Get(f, "website").JString? && p.website == Some(SanitizeUrl(Get(f, "website").s)))
      && (Get(f, "logo") != Undefined ==> p.logo == Some(Get(f, "logo")))
      && (Get(f, "theme") != Undefined ==>
            p.theme.Some? && Get(f, "theme") == JString(ThemeName(p.theme.value)))
      && (Get(f, "socialLinks") != Undefined ==>
            p.socialLinks == Some(SocialLinksArray(Get(f, "socialLinks"), checks).data))
  {
  }

  /** The patch that sets every field of a creation input. */
  function AsPatch(c: CardInput): CardPatch
  {
    CardPatch(Some(c.card.name), Some(c.card.position), Some(c.card.company), Some(c.card.email),
              c.card.phone, c.card.website, c.card.logo, Some(c.card.theme), Some(c.socialLinks))
  }

  /** On a body that gives every key, the update schema is the creation
      schema: the same verdict, the same issues and the same values. */
  lemma UpdateIsPartialCreate(body: Json, checks: Checks)
    requires body.JObject?
    requires forall k :: k in CardKeys ==> Get(body.fields, k) != Undefined
    ensures CreateCard(body, checks).Success? ==>
      UpdateCard(body, checks) == Success(AsPatch(CreateCard(body, checks).data))
    ensures CreateCard(body, checks).Failure? ==>
      UpdateCard(body, checks) == Failure(CreateCard(body, checks).issues)
  {
    var f := body.fields;
    assert Get(f, "name") != Undefined && Get(f, "position") != Undefined && Get(f, "company") != Undefined;
    assert Get(f, "email") != Undefined && Get(f, "phone") != Undefined && Get(f, "website") != Undefined;
    assert Get(f, "logo") != Undefined && Get(f, "theme") != Undefined && Get(f, "socialLinks") != Undefined;
    OptionalPresent(Get(f, "name"), BoundedText(Get(f, "name"), NameRequired, NameTooLong));
    OptionalPresent(Get(f, "position"), BoundedText(Get(f, "position"), PositionRequired, PositionTooLong));
    OptionalPresent(Get(f, "company"), BoundedText(Get(f, "company"), CompanyRequired, CompanyTooLong));
    OptionalPresent(Get(f, "email"), EmailField(Get(f, "email"), checks));
    OptionalPresent(Get(f, "theme"), ThemeEnum(Get(f, "theme")));
    OptionalPresent(Get(f, "socialLinks"), SocialLinksArray(Get(f, "socialLinks"), checks));
  }

  /** An update body that names none of the card's keys is accepted as the
      empty patch. */
  lemma EmptyUpdate(fields: map<string, Json>, checks: Checks)
    requires forall k :: k in fields ==> k !in CardKeys
    ensures UpdateCard(JObject(fields), checks)
      == Success(CardPatch(None, None, None, None, None, None, None, None, None))
  {
  }
  /** A body is accepted for update exactly when it is an object and each
      key it gives passes the creation schema's check for that key; a key
      it leaves out is never checked. */
  lemma UpdateAccepts(body: Json, checks: Checks)
    ensures UpdateCard(body, checks).Success? <==>
      body.JObject?
      && (Get(body.fields, "name") == Undefined
          || BoundedText(Get(body.fields, "name"), NameRequired, NameTooLong).Success?)
      && (Get(body.fields, "position") == Undefined
          || BoundedText(Get(body.fields, "position"), PositionRequired, PositionTooLong).Success?)
      && (Get(body.fields, "company") == Undefined
          || BoundedText(Get(body.fields, "company"), CompanyRequired, CompanyTooLong).Success?)
      && (Get(body.fields, "email") == Undefined || EmailField(Get(body.fields, "email"), checks).Success?)
      && PhoneField(Get(body.fields, "phone")).Success?
      && (Get(body.fields, "website") == Undefined || UrlField(Get(body.fields, "website"), checks).Success?)
      && (Get(body.fields, "theme") == Undefined || ThemeEnum(Get(body.fields, "theme")).Success?)
      && (Get(body.fields, "socialLinks") == Undefined
          || SocialLinksArray(Get(body.fields, "socialLinks"), checks).Success?)
  {
  }

  /** A body that gives only `company` is accepted and writes only the
      sanitised company. */
  lemma UpdateCompanyOnly(checks: Checks)
    ensures UpdateCard(JObject(map["company" := JString("X")]), checks)
      == Success(CardPatch(None, None, Some("X"), None, None, None, None, None, None))
  {
    var f := map["company" := JString("X")];
    assert Get(f, "company") == JString("X");
    forall k | k in CardKeys && k != "company" ensures Get(f, k) == Undefined {
    }
    assert Get(f, "name") == Undefined && Get(f, "position") == Undefined && Get(f, "email") == Undefined;
    assert Get(f, "phone") == Undefined && Get(f, "website") == Undefined && Get(f, "logo") == Undefined;
    assert Get(f, "theme") == Undefined && Get(f, "socialLinks") == Undefined;
    TrimKeepsTrimmed("X");
    StripBracketsChar('X');
    assert SanitizeText("X") == "X";
  }

  /** The first issue of a rejected creation body belongs to the first
      declared key that fails, so it is the one the handlers report. */
  lemma CreateFirstIssue(body: Json, checks: Checks)
    requires body.JObject?
    ensures var f := body.fields; var p := CreateCard(body, checks);
      var name := BoundedText(Get(f, "name"), NameRequired, NameTooLong);
      var position := BoundedText(Get(f, "position"), PositionRequired, PositionTooLong);
      var company := BoundedText(Get(f, "company"), CompanyRequired, CompanyTooLong);
      var email := EmailField(Get(f, "email"), checks);
      var phone := PhoneField(Get(f, "phone"));
      var website := Optional(Get(f, "website"), UrlField(Get(f, "website"), checks));
      var theme := ThemeField(Get(f, "theme"));
      var links := SocialLinksField(Get(f, "socialLinks"), checks);
      && (name.Failure? ==> ReportsFirst(p, name))
      && (name.Success? ==> position.Failure? ==> ReportsFirst(p, position))
      && (name.Success? ==> position.Success? ==> company.Failure? ==> ReportsFirst(p, company))
      && (name.Success? ==> position.Success? ==> company.Success? ==> email.Failure? ==>
            ReportsFirst(p, email))
      && (name.Success? ==> position.Success? ==> company.Success? ==> email.Success? ==>
            phone.Failure? ==> ReportsFirst(p, phone))
      && (name.Success? ==> position.Success? ==> company.Success? ==> email.Success? ==>
            phone.Success? ==> website.Failure? ==> ReportsFirst(p, website))
      && (name.Success? ==> position.Success? ==> company.Success? ==> email.Success? ==>
            phone.Success? ==> website.Success? ==> theme.Failure? ==> ReportsFirst(p, theme))
      && (name.Success? ==> position.Success? ==> company.Success? ==> email.Success? ==>
            phone.Success? ==> website.Success? ==> theme.Success? ==> links.Failure? ==> ReportsFirst(p, links))
  {
  }

  /** The first issue of a rejected update body belongs to the first
      declared key that is given and fails. */
  lemma UpdateFirstIssue(body: Json, checks: Checks)
    requires body.JObject?
    ensures var f := body.fields; var p := UpdateCard(body, checks);
      var name := Optional(Get(f, "name"), BoundedText(Get(f, "name"), NameRequired, NameTooLong));
      var position := Optional(Get(f, "position"), BoundedText(Get(f, "position"), PositionRequired, PositionTooLong));
      var company := Optional(Get(f, "company"), BoundedText(Get(f, "company"), CompanyRequired, CompanyTooLong));
      var email := Optional(Get(f, "email"), EmailField(Get(f, "email"), checks));
      var phone := PhoneField(Get(f, "phone"));
      var website := Optional(Get(f, "website"), UrlField(Get(f, "website"), checks));
      var theme := Optional(Get(f, "theme"), ThemeEnum(Get(f, "theme")));
      var links := Optional(Get(f, "socialLinks"), SocialLinksArray(Get(f, "socialLinks"), checks));
      && (name.Failure? ==> ReportsFirst(p, name))
      && (name.Success? ==> position.Failure? ==> ReportsFirst(p, position))
      && (name.Success? ==> position.Success? ==> company.Failure? ==> ReportsFirst(p, company))
      && (name.Success? ==> position.Success? ==> company.Success? ==> email.Failure? ==>
            ReportsFirst(p, email))
      && (name.Success? ==> position.Success? ==> company.Success? ==> email.Success? ==>
            phone.Failure? ==> ReportsFirst(p, phone))
      && (name.Success? ==> position.Success? ==> company.Success? ==> email.Success? ==>
            phone.Success? ==> website.Failure? ==> ReportsFirst(p, website))
      && (name.Success? ==> position.Success? ==> company.Success? ==> email.Success? ==>
            phone.Success? ==> website.Success? ==> theme.Failure? ==> ReportsFirst(p, theme))
      && (name.Success? ==> position.Success? ==> company.Success? ==> email.Success? ==>
            phone.Success? ==> website.Success? ==> theme.Success? ==> links.Failure? ==> ReportsFirst(p, links))
  {
    var f := body.fields;
    var name := Optional(Get(f, "name"), BoundedText(Get(f, "name"), NameRequired, NameTooLong));
    var position := Optional(Get(f, "position"), BoundedText(Get(f, "position"), PositionRequired, PositionTooLong));
    var company := Optional(Get(f, "company"), BoundedText(Get(f, "company"), CompanyRequired, CompanyTooLong));
    var email := Optional(Get(f, "email"), EmailField(Get(f, "email"), checks));
    var phone := PhoneField(Get(f, "phone"));
    var website := Optional(Get(f, "website"), UrlField(Get(f, "website"), checks));
    var theme := Optional(Get(f, "theme"), ThemeEnum(Get(f, "theme")));
    var links := Optional(Get(f, "socialLinks"), SocialLinksArray(Get(f, "socialLinks"), checks));
    var all := name.Success? && position.Success? && company.Success? && email.Success?
      && phone.Success? && website.Success? && theme.Success? && links.Success?;
    if !all {
      assert UpdateCard(body, checks).issues
        == IssuesOf(name) + IssuesOf(position) + IssuesOf(company) + IssuesOf(email)
           + IssuesOf(phone) + IssuesOf(website) + IssuesOf(theme) + IssuesOf(links);
    }
  }

  /** An empty name is reported first, whatever else the body holds: the
      400 answer of a creation then carries the name's message. */
  lemma CreateNameReportedFirst(fields: map<string, Json>, checks: Checks)
    requires Get(fields, "name") == JString("")
    ensures CreateCard(JObject(fields), checks).Failure?
    ensures CreateCard(JObject(fields), checks).issues[0] == Issue(NameRequired)
  {
    CreateFirstIssue(JObject(fields), checks);
  }
}
