/** The obfuscation helpers of commons/obfuscation/obfuscation_utils.py.
    Every random choice is a parameter: a `pick` function gives the raw
    value of the i-th draw, reduced below the bound the library would draw
    under, and a coin is the `random.random()` value compared against. The
    libraries (`minify_html`, BeautifulSoup's parser and printer, `jsmin`)
    are opaque functions collected in `Libraries`. */
module Obfuscation {
  import opened Common
  import Base64

  /** The exceptions the helpers raise, by Python class. */
  datatype ObfuscationError =
    | ValueError(reason: string)
    | TypeError(reason: string)
    | AttributeError(reason: string)
    | MinifyFailed(reason: string)

  const BytesOutOfRange := "bytes must be in range(0, 256)"
  const PopulationNotSequence := "Population must be a sequence.  For dicts or sets, use sorted(d)."
  const NoBody := "'NoneType' object has no attribute 'extend'"

  // ---------------------------------------------------------------- xor

  /** `a ^ b` on non-negative integers, bit by bit from the lowest. */
  function Xor(a: nat, b: nat): nat
    decreases a
  {
    if a == 0 then b
    else if b == 0 then a
    else 2 * Xor(a / 2, b / 2) + (if a % 2 == b % 2 then 0 else 1)
  }

  /** Python's `a ^ key` for a character code `a` and any integer key
      (two's complement: a negative key flips every bit, and the result is
      negative). */
  function PyXor(a: nat, key: int): int
  {
    if key >= 0 then Xor(a, key) else -1 - Xor(a, -1 - key)
  }

  lemma XorHalves(a: nat, b: nat)
    ensures Xor(a, b) / 2 == Xor(a / 2, b / 2)
    ensures Xor(a, b) % 2 == (if a % 2 == b % 2 then 0 else 1)
  {
  }

  lemma {:induction false} XorSelf(a: nat)
    ensures Xor(a, a) == 0
    decreases a
  {
    if a != 0 {
      XorSelf(a / 2);
    }
  }

  /** XOR with the same value twice is the identity. */
  lemma {:induction false} XorTwice(a: nat, k: nat)
    ensures Xor(Xor(a, k), k) == a
    decreases a
  {
    if a == 0 {
      XorSelf(k);
    } else {
      var x := Xor(a, k);
      XorHalves(a, k);
      XorHalves(x, k);
      XorTwice(a / 2, k / 2);
      assert Xor(x, k) / 2 == a / 2 && Xor(x, k) % 2 == a % 2;
    }
  }

  /** The same for Python's XOR when the first XOR gave a non-negative
      value. */
  lemma PyXorTwice(a: nat, key: int)
    requires PyXor(a, key) >= 0
    ensures PyXor(PyXor(a, key), key) == a
  {
    if key >= 0 {
      XorTwice(a, key);
    }
  }

  // ---------------------------------------------------------------- simple_encrypt

  function Codes(text: string): (cs: seq<int>)
    ensures |cs| == |text|
    ensures forall i :: 0 <= i < |text| ==> cs[i] == text[i] as int
  {
    seq(|text|, i requires 0 <= i < |text| => text[i] as int)
  }

  /** Every code XOR `key` is a byte, as `bytes(...)` insists. */
  predicate XorFitsBytes(text: string, key: int)
  {
    forall i :: 0 <= i < |text| ==> 0 <= PyXor(text[i] as int, key) < 256
  }

  function XorBytes(text: string, key: int): (bs: seq<Base64.Byte>)
    requires XorFitsBytes(text, key)
    ensures |bs| == |text|
  {
    seq(|text|, i requires 0 <= i < |text| => PyXor(text[i] as int, key))
  }

  /** `simple_encrypt(text, key)`: each character code XOR `key`, as bytes,
      in Base64; `bytes` raises `ValueError` when a value leaves 0..255,
      which a negative key always does on a non-empty text. */
  function SimpleEncrypt(text: string, key: int): (r: Result<string, ObfuscationError>)
    ensures r.Ok? <==> XorFitsBytes(text, key)
    ensures key < 0 && text != [] ==> r.Err?
    ensures r.Ok? ==> |r.value| == (|text| + 2) / 3 * 4
  {
    if XorFitsBytes(text, key) then
      Base64.EncodeLength(XorBytes(text, key));
      Ok(Base64.Encode(XorBytes(text, key)))
    else
      Err(ValueError(BytesOutOfRange))
  }

  /** Each byte XOR `key`. */
  function XorEach(bs: seq<Base64.Byte>, key: int): (cs: seq<int>)
    ensures |cs| == |bs|
    ensures forall i :: 0 <= i < |bs| ==> cs[i] == PyXor(bs[i], key)
  {
    seq(|bs|, i requires 0 <= i < |bs| => PyXor(bs[i], key))
  }

  /** The inverse: Base64-decode, then XOR each byte with the key again. */
  function SimpleDecrypt(s: string, key: int): Option<seq<int>>
  {
    match Base64.Decode(s)
    case None => None
    case Some(bs) => Some(XorEach(bs, key))
  }

  /** Decrypting what `simple_encrypt` produced gives back the character
      codes of the text. */
  lemma EncryptDecrypt(text: string, key: int)
    requires SimpleEncrypt(text, key).Ok?
    ensures SimpleDecrypt(SimpleEncrypt(text, key).value, key) == Some(Codes(text))
  {
    var bs := XorBytes(text, key);
    assert SimpleEncrypt(text, key).value == Base64.Encode(bs);
    Base64.DecodeEncode(bs);
    var back := XorEach(bs, key);
    forall i | 0 <= i < |text|
      ensures back[i] == Codes(text)[i]
    {
      PyXorTwice(text[i] as int, key);
    }
    assert back == Codes(text);
  }

  // ---------------------------------------------------------------- random strings

  predicate IsAsciiLetter(c: char)
  {
    'a' <= c <= 'z' || 'A' <= c <= 'Z'
  }

  predicate IsAsciiAlnum(c: char)
  {
    IsAsciiLetter(c) || '0' <= c <= '9'
  }

  /** `string.ascii_letters[i]`: lower case first, then upper case. */
  function LetterAt(i: nat): (c: char)
    requires i < 52
    ensures IsAsciiLetter(c)
  {
    if i < 26 then (('a' as int) + i) as char else (('A' as int) + i - 26) as char
  }

  /** `(string.ascii_letters + string.digits)[i]`. */
  function AlnumAt(i: nat): (c: char)
    requires i < 62
    ensures IsAsciiAlnum(c)
  {
    if i < 52 then LetterAt(i) else (('0' as int) + i - 52) as char
  }

  /** `generate_random_string(length)`: one letter, then `length - 1`
      letters or digits; `random.choices` with a negative count returns
      nothing, so a length below 1 still gives one letter. Draw 0 picks the
      letter, draw i the i-th further character. */
  function GenerateRandomString(length: int, pick: nat -> nat): (s: string)
    ensures |s| == if length >= 1 then length else 1
    ensures IsAsciiLetter(s[0])
    ensures forall i :: 1 <= i < |s| ==> IsAsciiAlnum(s[i])
  {
    var more := if length >= 1 then length - 1 else 0;
    var tail := seq(more, i requires 0 <= i < more => AlnumAt(pick(i + 1) % 62));
    assert forall i :: 0 <= i < |tail| ==> tail[i] == AlnumAt(pick(i + 1) % 62);
    assert forall i :: 0 <= i < |tail| ==> IsAsciiAlnum(tail[i]);
    var s := [LetterAt(pick(0) % 52)] + tail;
    assert forall i :: 1 <= i < |s| ==> s[i] == tail[i - 1];
    s
  }

  // ---------------------------------------------------------------- comments

  const CommentOpen := "<!-- "
  const CommentClose := " -->"

  /** `add_enclosing_comments`: the content between two HTML comments, each
      holding a fresh 16-character random string. */
  function AddEnclosingComments(content: string, pick1: nat -> nat, pick2: nat -> nat): (r: string)
    ensures |r| == |content| + 52
    ensures r[26..|r| - 26] == content
    ensures r[..5] == CommentOpen && r[|r| - 4..] == CommentClose
    ensures r[5..21] == GenerateRandomString(16, pick1) && r[|r| - 20..|r| - 4] == GenerateRandomString(16, pick2)
  {
    var r := CommentOpen + GenerateRandomString(16, pick1) + CommentClose + "\n" + content
      + "\n" + CommentOpen + GenerateRandomString(16, pick2) + CommentClose;
    assert r[26..|r| - 26] == content;
    r
  }

  /** Undoes `add_enclosing_comments`. */
  function StripEnclosingComments(r: string): string
    requires |r| >= 52
  {
    r[26..|r| - 26]
  }

  lemma StripAddComments(content: string, pick1: nat -> nat, pick2: nat -> nat)
    ensures StripEnclosingComments(AddEnclosingComments(content, pick1, pick2)) == content
  {
  }

  // ---------------------------------------------------------------- random.sample

  predicate Distinct<T(==)>(s: seq<T>)
  {
    forall i, j :: 0 <= i < j < |s| ==> s[i] != s[j]
  }

  /** Taking element `j` out of a pool by moving the last element into its
      place removes exactly one copy of it. */
  lemma PoolStep<T>(s: seq<T>, j: nat)
    requires j < |s|
    ensures multiset(s[j := s[|s| - 1]][..|s| - 1]) + multiset{s[j]} == multiset(s)
  {
    var last := |s| - 1;
    if j < last {
      assert s == s[..j] + [s[j]] + s[j + 1..last] + [s[last]];
      assert s[j := s[last]][..last] == s[..j] + [s[last]] + s[j + 1..last];
    } else {
      assert s == s[..last] + [s[last]];
    }
  }

  /** `random.sample(population, k)` for a population no larger than the
      library's set-size threshold, which covers every call here: draw `i`
      picks a place below `n - i` in the pool of not yet chosen elements,
      and the last pool element fills the gap. */
  /** One draw moves `pool[j]` from the first `m` pool places to the
      result and keeps the multiset of both together. */
  lemma SampleStep<T>(population: seq<T>, pool: seq<T>, result: seq<T>, m: nat, j: nat)
    requires j < m <= |pool|
    requires multiset(result) + multiset(pool[..m]) == multiset(population)
    ensures multiset(result + [pool[j]]) + multiset(pool[j := pool[m - 1]][..m - 1]) == multiset(population)
  {
    PoolStep(pool[..m], j);
    assert pool[j := pool[m - 1]][..m - 1] == pool[..m][j := pool[m - 1]][..m - 1];
  }

  method Sample<T>(population: seq<T>, k: nat, pick: nat -> nat) returns (result: seq<T>)
    requires k <= |population|
    ensures |result| == k
    ensures multiset(result) <= multiset(population)
    ensures k == |population| ==> multiset(result) == multiset(population)
  {
    var n := |population|;
    var pool := population;
    result := [];
    var i := 0;
    assert pool[..n] == population;
    while i < k
      invariant 0 <= i <= k
      invariant |pool| == n && |result| == i
      invariant multiset(result) + multiset(pool[..n - i]) == multiset(population)
    {
      var j := pick(i) % (n - i);
      SampleStep(population, pool, result, n - i, j);
      result := result + [pool[j]];
      pool := pool[j := pool[n - i - 1]];
      i := i + 1;
    }
  }

  lemma {:induction false} DistinctCount<T>(p: seq<T>, x: T)
    requires Distinct(p)
    ensures multiset(p)[x] <= 1
  {
    if p != [] {
      assert p == [p[0]] + p[1..];
      assert Distinct(p[1..]) by {
        forall i, j | 0 <= i < j < |p[1..]|
          ensures p[1..][i] != p[1..][j]
        {
          assert p[1..][i] == p[i + 1] && p[1..][j] == p[j + 1];
        }
      }
      DistinctCount(p[1..], x);
      if p[0] == x {
        assert x !in p[1..];
      }
    }
  }

  lemma RepeatCount<T>(r: seq<T>, i: nat, j: nat)
    requires i < j < |r| && r[i] == r[j]
    ensures multiset(r)[r[i]] >= 2
  {
    assert r == r[..i] + [r[i]] + r[i + 1..j] + [r[j]] + r[j + 1..];
  }

  /** What is drawn without replacement from distinct elements is
      distinct. */
  lemma SampleDistinct<T>(r: seq<T>, p: seq<T>)
    requires multiset(r) <= multiset(p) && Distinct(p)
    ensures Distinct(r)
  {
    forall i, j | 0 <= i < j < |r|
      ensures r[i] != r[j]
    {
      if r[i] == r[j] {
        RepeatCount(r, i, j);
        DistinctCount(p, r[i]);
      }
    }
  }

  /** `random.sample` as called here: the population is a sequence, or a
      set-like view such as `dict.items()`, which Python 3.11 and later
      refuse with `TypeError` before drawing anything. */
  datatype Population<T> = ListOf(items: seq<T>) | DictItems(items: seq<T>)

  method SampleFrom<T>(population: Population<T>, k: nat, pick: nat -> nat) returns (r: Result<seq<T>, ObfuscationError>)
    requires k <= |population.items|
    ensures r.Err? <==> population.DictItems?
    ensures r.Err? ==> r.error == TypeError(PopulationNotSequence)
    ensures r.Ok? ==> |r.value| == k && multiset(r.value) <= multiset(population.items)
  {
    if population.DictItems? {
      return Err(TypeError(PopulationNotSequence));
    }
    var s := Sample(population.items, k, pick);
    r := Ok(s);
  }

  // ---------------------------------------------------------------- the tag tree

  /** A tag of the parsed document: its name, its attributes in order (a
      parsed tag never repeats an attribute name), and its text. */
  datatype Tag = Tag(name: string, attrs: Dict<string, string>, text: string)

  /** What the parser returns: every tag in document order, as `find_all()`
      lists them, and the position just after the last descendant of
      `<body>` when the document has one. */
  datatype Parsed = Parsed(tags: seq<Tag>, bodyEnd: Option<nat>)

  predicate WellFormed(p: Parsed)
  {
    p.bodyEnd.Some? ==> p.bodyEnd.value <= |p.tags|
  }

  /** The keyword arguments of `minify_html.minify`. */
  datatype MinifyOption =
    | KeepClosingTags
    | DoNotMinifyDoctype
    | EnsureSpecCompliantUnquotedAttributeValues
    | KeepComments
    | KeepHtmlAndHeadOpeningTags
    | KeepInputTypeTextAttr
    | KeepSpacesBetweenAttributes
    | KeepSsiComments
    | PreserveBraceTemplateSyntax
    | PreserveChevronPercentTemplateSyntax
    | RemoveBangs
    | RemoveProcessingInstructions

  /** The external libraries: `minify_html.minify` (which may raise),
      BeautifulSoup's `html.parser` and `str(soup)`, and `jsmin`. */
  datatype Libraries = Libraries(
    minify: (string, Dict<MinifyOption, bool>) -> Result<string, string>,
    parse: string -> Parsed,
    render: seq<Tag> -> string,
    jsmin: string -> string)

  ghost predicate ParserWellFormed(libs: Libraries)
  {
    forall s :: WellFormed(libs.parse(s))
  }

  const RandomAttributeChance: real := 0.3
  const HiddenStyle := "display:none;"

  /** One step of `add_random_attributes`: below the chance, the tag gets
      (or overwrites) the attribute `name="value"`. */
  function WithRandomAttribute(t: Tag, coin: real, name: string, value: string): Tag
  {
    if coin < RandomAttributeChance then t.(attrs := Set(t.attrs, name, value)) else t
  }

  /** No attribute name is lost, and an added one carries its value. */
  lemma RandomAttributeKeepsNames(t: Tag, coin: real, name: string, value: string)
    ensures forall k :: HasKey(t.attrs, k) ==> HasKey(WithRandomAttribute(t, coin, name, value).attrs, k)
    ensures coin < RandomAttributeChance ==> Get(WithRandomAttribute(t, coin, name, value).attrs, name) == Some(value)
    ensures coin >= RandomAttributeChance ==> WithRandomAttribute(t, coin, name, value) == t
  {
    SetProperties(t.attrs, name, value);
    forall k | HasKey(t.attrs, k)
      ensures HasKey(WithRandomAttribute(t, coin, name, value).attrs, k)
    {
      assert Get(t.attrs, k).Some?;
    }
  }

  predicate IsHiddenDiv(t: Tag)
  {
    t.name == "div" && Get(t.attrs, "style") == Some(HiddenStyle)
  }

  /** `soup.new_tag("div", style="display:none;", string=text)`. */
  function HiddenDiv(text: string): (t: Tag)
    ensures IsHiddenDiv(t) && t.text == text
  {
    var attrs := [("style", HiddenStyle)];
    assert attrs[0].0 == "style";
    Tag("div", attrs, text)
  }

  /** The `count` hidden divs of `add_dummy_elements`, each holding a
      20-character random string. */
  function Dummies(count: nat, text: nat -> nat -> nat): (ds: seq<Tag>)
    ensures |ds| == count
    ensures forall j :: 0 <= j < count ==> IsHiddenDiv(ds[j]) && |ds[j].text| == 20
  {
    var ds := seq(count, j requires 0 <= j < count => HiddenDiv(GenerateRandomString(20, text(j))));
    assert forall j :: 0 <= j < count ==> ds[j] == HiddenDiv(GenerateRandomString(20, text(j)));
    ds
  }

  /** A tag that kept its name, its text and every attribute name it had
      (values may change, names may be added). */
  ghost predicate Kept(before: Tag, after: Tag)
  {
    && after.name == before.name && after.text == before.text
    && forall k :: HasKey(before.attrs, k) ==> HasKey(after.attrs, k)
  }

  ghost predicate KeptAll(before: seq<Tag>, after: seq<Tag>)
  {
    |after| == |before| && forall i :: 0 <= i < |before| ==> Kept(before[i], after[i])
  }

  /** What a hidden dummy div still is after later techniques: a `div`
      with 20 characters of text and a `style` attribute (whose value a
      random attribute of the same name could overwrite). */
  ghost predicate DummyLike(t: Tag)
  {
    t.name == "div" && |t.text| == 20 && HasKey(t.attrs, "style")
  }

  /** The tree printed after the techniques, against the parsed one: the
      parsed tags in order, each kept, with `added` dummy divs at the end
      of the body (at the end of the document when there is no body, where
      nothing is added). */
  ghost predicate Layout(parsed: Parsed, tags: seq<Tag>, added: int)
  {
    var e := if parsed.bodyEnd.Some? && parsed.bodyEnd.value <= |parsed.tags| then parsed.bodyEnd.value else |parsed.tags|;
    && added >= 0
    && |tags| == |parsed.tags| + added
    && (forall i :: 0 <= i < e ==> Kept(parsed.tags[i], tags[i]))
    && (forall i :: e <= i < e + added ==> DummyLike(tags[i]))
    && (forall i :: e + added <= i < |tags| ==> Kept(parsed.tags[i - added], tags[i]))
  }

  lemma LayoutStart(parsed: Parsed)
    ensures Layout(parsed, parsed.tags, 0)
  {
  }

  /** Techniques that keep every tag keep the layout. */
  lemma LayoutKeeps(parsed: Parsed, tags: seq<Tag>, tags': seq<Tag>, added: int)
    requires Layout(parsed, tags, added) && KeptAll(tags, tags')
    ensures Layout(parsed, tags', added)
  {
    var e := if parsed.bodyEnd.Some? && parsed.bodyEnd.value <= |parsed.tags| then parsed.bodyEnd.value else |parsed.tags|;
    forall i | 0 <= i < |tags'|
      ensures i < e ==> Kept(parsed.tags[i], tags'[i])
      ensures e <= i < e + added ==> DummyLike(tags'[i])
      ensures e + added <= i ==> Kept(parsed.tags[i - added], tags'[i])
    {
      assert Kept(tags[i], tags'[i]);
    }
  }

  /** Dummy divs inserted at the end of the body of an otherwise kept
      tree. */
  lemma LayoutDummies(parsed: Parsed, tags: seq<Tag>, ds: seq<Tag>)
    requires WellFormed(parsed) && parsed.bodyEnd.Some?
    requires Layout(parsed, tags, 0)
    requires forall j :: 0 <= j < |ds| ==> IsHiddenDiv(ds[j]) && |ds[j].text| == 20
    ensures Layout(parsed, tags[..parsed.bodyEnd.value] + ds + tags[parsed.bodyEnd.value..], |ds|)
  {
    var e := parsed.bodyEnd.value;
    var out := tags[..e] + ds + tags[e..];
    forall i | 0 <= i < |out|
      ensures i < e ==> Kept(parsed.tags[i], out[i])
      ensures e <= i < e + |ds| ==> DummyLike(out[i])
      ensures e + |ds| <= i ==> Kept(parsed.tags[i - |ds|], out[i])
    {
      if i < e {
        assert out[i] == tags[i];
      } else if i < e + |ds| {
        assert out[i] == ds[i - e];
        assert Get(ds[i - e].attrs, "style").Some?;
      } else {
        assert out[i] == tags[i - |ds|];
      }
    }
  }

  /** Permuting a dictionary's pairs loses no key. */
  lemma PermutedKeys<K, V>(a: Dict<K, V>, b: Dict<K, V>, k: K)
    requires multiset(a) == multiset(b) && HasKey(a, k)
    ensures HasKey(b, k)
  {
    var i :| 0 <= i < |a| && a[i].0 == k;
    assert a[i] in multiset(b);
    var j :| 0 <= j < |b| && b[j] == a[i];
  }

  /** A parsed document: BeautifulSoup's tree, flattened in document
      order. */
  class Soup {
    var tags: seq<Tag>
    var bodyEnd: Option<nat>

    predicate Valid()
      reads this
    {
      bodyEnd.Some? ==> bodyEnd.value <= |tags|
    }

    constructor (p: Parsed)
      requires WellFormed(p)
      ensures tags == p.tags && bodyEnd == p.bodyEnd
      ensures Valid()
    {
      tags := p.tags;
      bodyEnd := p.bodyEnd;
    }

    /** `add_random_attributes`: each tag independently, with probability
        0.3, gets a random 5-character attribute name with a random
        8-character value; no attribute name disappears. */
    method AddRandomAttributes(coin: nat -> real, name: nat -> nat -> nat, value: nat -> nat -> nat)
      requires Valid()
      modifies this
      ensures Valid() && bodyEnd == old(bodyEnd)
      ensures |tags| == |old(tags)|
      ensures forall i :: 0 <= i < |tags| ==>
        tags[i] == WithRandomAttribute(old(tags)[i], coin(i), GenerateRandomString(5, name(i)), GenerateRandomString(8, value(i)))
      ensures KeptAll(old(tags), tags)
    {
      var i := 0;
      while i < |tags|
        invariant 0 <= i <= |tags| == |old(tags)|
        invariant bodyEnd == old(bodyEnd)
        invariant forall j :: 0 <= j < i ==>
          tags[j] == WithRandomAttribute(old(tags)[j], coin(j), GenerateRandomString(5, name(j)), GenerateRandomString(8, value(j)))
        invariant forall j :: i <= j < |tags| ==> tags[j] == old(tags)[j]
      {
        tags := tags[i := WithRandomAttribute(tags[i], coin(i), GenerateRandomString(5, name(i)), GenerateRandomString(8, value(i)))];
        i := i + 1;
      }
      forall i | 0 <= i < |tags|
        ensures Kept(old(tags)[i], tags[i])
      {
        RandomAttributeKeepsNames(old(tags)[i], coin(i), GenerateRandomString(5, name(i)), GenerateRandomString(8, value(i)));
      }
    }

    /** `add_dummy_elements`: between 1 and 5 hidden divs go at the end of
        `<body>`; without a body, `soup.body` is `None` and the call
        raises, changing nothing. */
    method AddDummyElements(count: int, text: nat -> nat -> nat) returns (ok: bool)
      requires Valid()
      requires 1 <= count <= 5
      modifies this
      ensures Valid()
      ensures ok <==> old(bodyEnd).Some?
      ensures !ok ==> tags == old(tags) && bodyEnd == old(bodyEnd)
      ensures ok ==>
        var e := old(bodyEnd).value;
        && tags == old(tags)[..e] + Dummies(count, text) + old(tags)[e..]
        && bodyEnd == Some(e + count)
    {
      var dummies := Dummies(count, text);
      if bodyEnd.None? {
        return false;
      }
      var e := bodyEnd.value;
      var before, after := tags[..e], tags[e..];
      assert |before| == e && |dummies| == count;
      tags := before + dummies + after;
      bodyEnd := Some(e + count);
      return true;
    }

    /** `shuffle_attributes`: every tag's attributes are put in a random
        order; each tag keeps exactly the same name/value pairs. */
    method ShuffleAttributes(pick: nat -> nat -> nat)
      requires Valid()
      modifies this
      ensures Valid() && bodyEnd == old(bodyEnd)
      ensures |tags| == |old(tags)|
      ensures forall i :: 0 <= i < |tags| ==>
        && tags[i].name == old(tags)[i].name
        && tags[i].text == old(tags)[i].text
        && multiset(tags[i].attrs) == multiset(old(tags)[i].attrs)
      ensures KeptAll(old(tags), tags)
    {
      var i := 0;
      while i < |tags|
        invariant 0 <= i <= |tags| == |old(tags)|
        invariant bodyEnd == old(bodyEnd)
        invariant forall j :: 0 <= j < i ==>
          && tags[j].name == old(tags)[j].name
          && tags[j].text == old(tags)[j].text
          && multiset(tags[j].attrs) == multiset(old(tags)[j].attrs)
        invariant forall j :: i <= j < |tags| ==> tags[j] == old(tags)[j]
      {
        var shuffled := Sample(tags[i].attrs, |tags[i].attrs|, pick(i));
        tags := tags[i := tags[i].(attrs := shuffled)];
        i := i + 1;
      }
      forall i, k | 0 <= i < |tags| && HasKey(old(tags)[i].attrs, k)
        ensures HasKey(tags[i].attrs, k)
      {
        PermutedKeys(old(tags)[i].attrs, tags[i].attrs, k);
      }
    }
  }

  // ---------------------------------------------------------------- apply_techniques

  datatype Technique = RandomAttributes | DummyElements | ShuffledAttributes

  const Techniques: seq<Technique> := [RandomAttributes, DummyElements, ShuffledAttributes]

  /** The random draws one `obfuscate` call consumes. */
  datatype Draws = Draws(
    paramPick: nat -> nat,               // random.sample(minify options, 5)
    techniqueCount: int,                 // random.randint(1, 3)
    techniquePick: nat -> nat,           // random.sample(techniques, count)
    attributeCoin: nat -> real,          // random.random() for the i-th tag
    attributeName: nat -> nat -> nat,    // generate_random_string(5) for the i-th tag
    attributeValue: nat -> nat -> nat,   // generate_random_string(8) for the i-th tag
    dummyCount: int,                     // random.randint(1, 5)
    dummyText: nat -> nat -> nat,        // generate_random_string(20) for the j-th div
    shufflePick: nat -> nat -> nat,      // random.sample(attributes) for the i-th tag
    commentCoin: real,                   // random.random() before the comments
    commentPick1: nat -> nat,
    commentPick2: nat -> nat)

  /** The ranges `random.randint` guarantees. */
  predicate InRange(d: Draws)
  {
    1 <= d.techniqueCount <= 3 && 1 <= d.dummyCount <= 5
  }

  /** One technique applied to a soup whose tags are laid out against
      `parsed` with `added` dummy divs: `soup = technique(soup)`. */
  method ApplyTechnique(soup: Soup, t: Technique, d: Draws, ghost parsed: Parsed, ghost added: int) returns (ok: bool)
    requires soup.Valid() && WellFormed(parsed) && InRange(d)
    requires Layout(parsed, soup.tags, added)
    requires t == DummyElements ==> added == 0 && soup.bodyEnd == parsed.bodyEnd
    modifies soup
    ensures soup.Valid()
    ensures ok <==> t != DummyElements || parsed.bodyEnd.Some?
    ensures t != DummyElements ==> soup.bodyEnd == old(soup.bodyEnd) && Layout(parsed, soup.tags, added)
    ensures ok && t == DummyElements ==>
      soup.bodyEnd == Some(parsed.bodyEnd.value + d.dummyCount) && Layout(parsed, soup.tags, d.dummyCount)
  {
    ghost var before := soup.tags;
    match t {
      case RandomAttributes =>
        soup.AddRandomAttributes(d.attributeCoin, d.attributeName, d.attributeValue);
        LayoutKeeps(parsed, before, soup.tags, added);
        ok := true;
      case DummyElements =>
        ok := soup.AddDummyElements(d.dummyCount, d.dummyText);
        if ok {
          LayoutDummies(parsed, before, Dummies(d.dummyCount, d.dummyText));
        }
      case ShuffledAttributes =>
        soup.ShuffleAttributes(d.shufflePick);
        LayoutKeeps(parsed, before, soup.tags, added);
        ok := true;
    }
  }

  /** How many dummy divs the drawn techniques add. */
  function Added(chosen: seq<Technique>, d: Draws): int
  {
    if DummyElements in chosen then d.dummyCount else 0
  }

  /** `apply_techniques`: between 1 and 3 distinct techniques, in a random
      order, on the parsed content. The only failure is adding dummy
      elements to a document without `<body>`; otherwise the result is the
      printed tree: the parsed tags, each keeping its name, text and
      attribute names, with the dummy divs at the end of the body if they
      were chosen. */
  method ApplyTechniques(content: string, libs: Libraries, d: Draws)
    returns (r: Result<string, ObfuscationError>, chosen: seq<Technique>, tags: seq<Tag>)
    requires ParserWellFormed(libs) && InRange(d)
    ensures |chosen| == d.techniqueCount && Distinct(chosen)
    ensures r.Err? <==> DummyElements in chosen && libs.parse(content).bodyEnd.None?
    ensures r.Err? ==> r.error == AttributeError(NoBody)
    ensures r.Ok? ==> r.value == libs.render(tags) && Layout(libs.parse(content), tags, Added(chosen, d))
  {
    chosen := Sample(Techniques, d.techniqueCount, d.techniquePick);
    SampleDistinct(chosen, Techniques);
    var parsed := libs.parse(content);
    var soup := new Soup(parsed);
    LayoutStart(parsed);
    ghost var dummied := false;
    var i := 0;
    while i < |chosen|
      invariant 0 <= i <= |chosen|
      invariant soup.Valid()
      invariant dummied == (DummyElements in chosen[..i])
      invariant dummied ==> parsed.bodyEnd.Some? && soup.bodyEnd == Some(parsed.bodyEnd.value + d.dummyCount)
      invariant !dummied ==> soup.bodyEnd == parsed.bodyEnd
      invariant Layout(parsed, soup.tags, if dummied then d.dummyCount else 0)
    {
      assert chosen[..i + 1] == chosen[..i] + [chosen[i]];
      assert chosen[i] == DummyElements ==> !dummied;
      var ok := ApplyTechnique(soup, chosen[i], d, parsed, if dummied then d.dummyCount else 0);
      if !ok {
        r, tags := Err(AttributeError(NoBody)), soup.tags;
        return;
      }
      dummied := dummied || chosen[i] == DummyElements;
      i := i + 1;
    }
    assert chosen[..i] == chosen;
    tags := soup.tags;
    r := Ok(libs.render(tags));
  }

  // ---------------------------------------------------------------- obfuscate

  const MinifyParams: Dict<MinifyOption, bool> := [
    (DoNotMinifyDoctype, true),
    (EnsureSpecCompliantUnquotedAttributeValues, true),
    (KeepComments, true),
    (KeepHtmlAndHeadOpeningTags, true),
    (KeepInputTypeTextAttr, true),
    (KeepSpacesBetweenAttributes, true),
    (KeepSsiComments, true),
    (PreserveBraceTemplateSyntax, true),
    (PreserveChevronPercentTemplateSyntax, true),
    (RemoveBangs, true),
    (RemoveProcessingInstructions, true)]

  /** `d.update(items)`: each item in turn, as `d[k] = v`. */
  function Update<K(==), V>(d: Dict<K, V>, items: seq<(K, V)>): Dict<K, V>
    decreases |items|
  {
    if items == [] then d else Update(Set(d, items[0].0, items[0].1), items[1..])
  }

  /** Items whose keys are new and distinct are appended in order. */
  lemma {:induction false} UpdateAppends<K, V>(d: Dict<K, V>, items: seq<(K, V)>)
    requires DistinctKeys(items)
    requires forall i :: 0 <= i < |items| ==> !HasKey(d, items[i].0)
    ensures Update(d, items) == d + items
    decreases |items|
  {
    if items != [] {
      SetShape(d, items[0].0, items[0].1);
      var d' := d + [items[0]];
      forall i | 0 <= i < |items[1..]|
        ensures !HasKey(d', items[1..][i].0)
      {
        assert items[1..][i] == items[i + 1];
      }
      assert DistinctKeys(items[1..]) by {
        forall i, j | 0 <= i < j < |items[1..]|
          ensures items[1..][i].0 != items[1..][j].0
        {
          assert items[1..][i] == items[i + 1] && items[1..][j] == items[j + 1];
        }
      }
      UpdateAppends(d', items[1..]);
      assert d' + items[1..] == d + items;
    }
  }

  /** The parameters `minify` receives: `keep_closing_tags` first, then five
      distinct options of the eleven others, all set to `True`. */
  predicate ChosenParams(params: Dict<MinifyOption, bool>)
  {
    && |params| == 6
    && params[0] == (KeepClosingTags, true)
    && DistinctKeys(params)
    && (forall i :: 0 <= i < |params| ==> params[i].1)
  }

  /** Distinct option items, none of them `keep_closing_tags`, all set to
      `True`. */
  predicate OptionItems(options: seq<(MinifyOption, bool)>)
  {
    Distinct(options) && forall i :: 0 <= i < |options| ==> options[i].1 && options[i].0 != KeepClosingTags
  }

  lemma MinifyParamsAreOptionItems()
    ensures OptionItems(MinifyParams) && |MinifyParams| == 11
  {
  }

  /** Items drawn without replacement from distinct options, none of them
      `keep_closing_tags` and all `True`, are such options with distinct
      names. */
  lemma SampledParams(s: seq<(MinifyOption, bool)>, options: seq<(MinifyOption, bool)>)
    requires multiset(s) <= multiset(options) && Distinct(options)
    requires forall i :: 0 <= i < |options| ==> options[i].1 && options[i].0 != KeepClosingTags
    ensures DistinctKeys(s)
    ensures forall i :: 0 <= i < |s| ==> s[i] in options && s[i].1 && s[i].0 != KeepClosingTags
  {
    SampleDistinct(s, options);
    forall i | 0 <= i < |s|
      ensures s[i] in options
    {
      assert s[i] in multiset(s);
    }
  }

  /** Lines 53-55: `keep_closing_tags=True` updated with a sample of five
      option items; the sample fails when given the `dict_items` view. */
  method SelectMinifyParams(items: Population<(MinifyOption, bool)>, pick: nat -> nat)
    returns (r: Result<Dict<MinifyOption, bool>, ObfuscationError>)
    requires OptionItems(items.items) && |items.items| >= 5
    ensures r.Err? <==> items.DictItems?
    ensures r.Ok? ==> ChosenParams(r.value)
  {
    var sampled := SampleFrom(items, 5, pick);
    if sampled.Err? {
      return Err(sampled.error);
    }
    var s := sampled.value;
    SampledParams(s, items.items);
    var start: Dict<MinifyOption, bool> := [(KeepClosingTags, true)];
    UpdateAppends(start, s);
    r := Ok(Update(start, s));
  }

  const CommentChance: real := 0.5

  /** What one `apply_techniques` call did: the techniques drawn, the tags
      of the tree it printed and its result. */
  datatype Applied = Applied(chosen: seq<Technique>, tags: seq<Tag>, result: Result<string, ObfuscationError>)

  /** What `apply_techniques` promises for `content`. */
  ghost predicate TechniquesApplied(content: string, libs: Libraries, d: Draws, a: Applied)
  {
    && |a.chosen| == d.techniqueCount && Distinct(a.chosen)
    && (a.result.Err? <==> DummyElements in a.chosen && libs.parse(content).bodyEnd.None?)
    && (a.result.Err? ==> a.result.error == AttributeError(NoBody))
    && (a.result.Ok? ==> a.result.value == libs.render(a.tags) && Layout(libs.parse(content), a.tags, Added(a.chosen, d)))
  }

  /** The last step of `obfuscate`: below the 0.5 chance, the content is
      wrapped in two random comments. */
  function MaybeCommented(content: string, d: Draws): (r: string)
    ensures d.commentCoin < CommentChance ==> |r| == |content| + 52 && StripEnclosingComments(r) == content
    ensures d.commentCoin >= CommentChance ==> r == content
  {
    if d.commentCoin < CommentChance then
      StripAddComments(content, d.commentPick1, d.commentPick2);
      AddEnclosingComments(content, d.commentPick1, d.commentPick2)
    else content
  }

  /** The body of `obfuscate`, with the form in which the option items reach
      `random.sample` as a parameter: any exception in the `try` block makes
      the result `jsmin` of the input. `params` are the options passed to
      `minify` and `applied` what `apply_techniques` did, when those steps
      were reached. */
  method ObfuscateWith(items: Population<(MinifyOption, bool)>, html: string, libs: Libraries, d: Draws)
    returns (r: string, params: Option<Dict<MinifyOption, bool>>, applied: Option<Applied>)
    requires OptionItems(items.items) && |items.items| >= 5
    requires ParserWellFormed(libs) && InRange(d)
    ensures params.Some? <==> items.ListOf?
    ensures params.Some? ==> ChosenParams(params.value)
    ensures applied.Some? <==> params.Some? && libs.minify(html, params.value).Ok?
    ensures applied.Some? ==> TechniquesApplied(libs.minify(html, params.value).value, libs, d, applied.value)
    ensures applied.None? || applied.value.result.Err? ==> r == libs.jsmin(html)
    ensures applied.Some? && applied.value.result.Ok? ==> r == MaybeCommented(applied.value.result.value, d)
  {
    var selected := SelectMinifyParams(items, d.paramPick);
    if selected.Err? {
      return libs.jsmin(html), None, None;
    }
    params := Some(selected.value);
    var minified := libs.minify(html, selected.value);
    if minified.Err? {
      return libs.jsmin(html), params, None;
    }
    var content, chosen, tags := ApplyTechniques(minified.value, libs, d);
    applied := Some(Applied(chosen, tags, content));
    if content.Err? {
      return libs.jsmin(html), params, applied;
    }
    r := content.value;
    if d.commentCoin < CommentChance {
      r := AddEnclosingComments(r, d.commentPick1, d.commentPick2);
    }
  }

  /** `obfuscate` as written: the option items are sampled straight from
      `minify_params.items()`, a view `random.sample` refuses on Python
      3.11+, so every call ends in the fallback. */
  method ObfuscateAsWritten(html: string, libs: Libraries, d: Draws) returns (r: string)
    requires ParserWellFormed(libs) && InRange(d)
    ensures r == libs.jsmin(html)
  {
    var params, applied;
    MinifyParamsAreOptionItems();
    r, params, applied := ObfuscateWith(DictItems(MinifyParams), html, libs, d);
  }

  /** `obfuscate` with the items sampled from a list: the minifier sees six
      options set to `True`; when it succeeds the techniques are applied to
      its output and the printed tree, perhaps between comments, is the
      result; a failure of either step falls back to `jsmin`. */
  method Obfuscate(html: string, libs: Libraries, d: Draws)
    returns (r: string, params: Dict<MinifyOption, bool>, applied: Option<Applied>)
    requires ParserWellFormed(libs) && InRange(d)
    ensures ChosenParams(params)
    ensures applied.Some? <==> libs.minify(html, params).Ok?
    ensures applied.Some? ==> TechniquesApplied(libs.minify(html, params).value, libs, d, applied.value)
    ensures applied.None? || applied.value.result.Err? ==> r == libs.jsmin(html)
    ensures applied.Some? && applied.value.result.Ok? ==> r == MaybeCommented(applied.value.result.value, d)
  {
    var p;
    MinifyParamsAreOptionItems();
    r, p, applied := ObfuscateWith(ListOf(MinifyParams), html, libs, d);
    params := p.value;
  }

  /** `obfuscate_html_and_js` as written: when the worker does not finish
      within the timeout the original content comes back unchanged;
      otherwise it is what `obfuscate` as written returns, the `jsmin`
      fallback. */
  method ObfuscateHtmlAndJs(html: string, libs: Libraries, d: Draws, timedOut: bool) returns (r: string)
    requires ParserWellFormed(libs) && InRange(d)
    ensures timedOut ==> r == html
    ensures !timedOut ==> r == libs.jsmin(html)
  {
    if timedOut {
      return html;
    }
    r := ObfuscateAsWritten(html, libs, d);
  }

  /** `obfuscate_html_and_js` over the corrected `obfuscate`: the original
      content on a timeout, otherwise what `Obfuscate` returns. */
  method ObfuscateHtmlAndJsCorrected(html: string, libs: Libraries, d: Draws, timedOut: bool)
    returns (r: string, params: Option<Dict<MinifyOption, bool>>, applied: Option<Applied>)
    requires ParserWellFormed(libs) && InRange(d)
    ensures timedOut ==> r == html && params.None? && applied.None?
    ensures !timedOut ==> params.Some? && ChosenParams(params.value)
    ensures applied.Some? <==> params.Some? && libs.minify(html, params.value).Ok?
    ensures applied.Some? ==> TechniquesApplied(libs.minify(html, params.value).value, libs, d, applied.value)
    ensures !timedOut && (applied.None? || applied.value.result.Err?) ==> r == libs.jsmin(html)
    ensures applied.Some? && applied.value.result.Ok? ==> r == MaybeCommented(applied.value.result.value, d)
  {
    if timedOut {
      return html, None, None;
    }
    var p;
    r, p, applied := Obfuscate(html, libs, d);
    params := Some(p);
  }

  // ---------------------------------------------------------------- output name

  /** `os.path.basename`: what follows the last `/`. */
  function Basename(p: string): (b: string)
    ensures EndsWith(p, b) && '/' !in b
    ensures |b| < |p| ==> p[|p| - |b| - 1] == '/'
  {
    if p == [] || p[|p| - 1] == '/' then []
    else
      var b := Basename(p[..|p| - 1]) + [p[|p| - 1]];
      assert p[|p| - |b|..] == p[..|p| - 1][|p| - |b|..] + [p[|p| - 1]];
      b
  }

  /** The index of the last `.`, if any. */
  function LastDot(s: string): (r: Option<nat>)
    ensures r.Some? ==> r.value < |s| && s[r.value] == '.' && '.' !in s[r.value + 1..]
    ensures r.None? ==> '.' !in s
  {
    if s == [] then None
    else if s[|s| - 1] == '.' then Some(|s| - 1)
    else
      var r := LastDot(s[..|s| - 1]);
      assert r.Some? ==> s[r.value + 1..] == s[..|s| - 1][r.value + 1..] + [s[|s| - 1]];
      assert r.None? ==> s == s[..|s| - 1] + [s[|s| - 1]];
      r
  }

  predicate AllDots(s: string)
  {
    forall i :: 0 <= i < |s| ==> s[i] == '.'
  }

  /** `os.path.splitext` on a name without `/`: the extension runs from the
      last dot, unless only dots come before that dot (a leading-dot name
      such as `.bashrc` has no extension). */
  function SplitExt(name: string): (r: (string, string))
    ensures r.0 + r.1 == name
    ensures r.1 != [] ==> r.1[0] == '.' && '.' !in r.1[1..] && !AllDots(r.0)
    ensures r.1 == [] && '.' in name ==> AllDots(name[..LastDot(name).value])
  {
    match LastDot(name)
    case None => (name, [])
    case Some(d) => if AllDots(name[..d]) then (name, []) else (name[..d], name[d..])
  }

  const ObfuscatedSuffix := "_obfuscated"

  /** Lines 186-188: an explicit, non-empty `-o` wins; otherwise the input's
      base name with `_obfuscated` before its extension. */
  function OutputFileName(inputFile: string, output: Option<string>): (r: string)
    ensures Present(output) ==> r == output.value
    ensures !Present(output) ==>
      var (stem, ext) := SplitExt(Basename(inputFile));
      && r == stem + ObfuscatedSuffix + ext
      && '/' !in r
  {
    if Present(output) then output.value
    else
      var (stem, ext) := SplitExt(Basename(inputFile));
      stem + ObfuscatedSuffix + ext
  }

  /** Taking `_obfuscated` out of a default output name gives back the
      input's base name. */
  lemma OutputNameRecoversBasename(inputFile: string, output: Option<string>)
    requires !Present(output)
    ensures var r := OutputFileName(inputFile, output);
      var stem := SplitExt(Basename(inputFile)).0;
      r[..|stem|] + r[|stem| + |ObfuscatedSuffix|..] == Basename(inputFile)
  {
    var (stem, ext) := SplitExt(Basename(inputFile));
    CutMiddle(stem, ObfuscatedSuffix, ext);
  }

  lemma CutMiddle(a: string, m: string, b: string)
    ensures (a + m + b)[..|a|] + (a + m + b)[|a| + |m|..] == a + b
  {
    var w := a + m + b;
    assert w[..|a|] == a && w[|a| + |m|..] == b;
  }
}
