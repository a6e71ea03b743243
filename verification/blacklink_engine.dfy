/** The standalone link engine: the short link of a page name. */
module BlackLinkEngine {
  import opened Text

  const ShortLinkBase := "https://black.link/"

  /** The slug of a name: lower-cased, every space replaced by a hyphen. */
  function Slug(name: string): (r: string)
    ensures |r| == |name|
    ensures ' ' !in r
    ensures forall i :: 0 <= i < |name| ==> r[i] == (if name[i] == ' ' then '-' else LowerChar(name[i]))
  {
    var lowered := Lower(name);
    var r := ReplaceChar(lowered, ' ', '-');
    assert forall i :: 0 <= i < |r| ==> r[i] != ' ';
    r
  }

  /** A slug is its own slug. */
  lemma SlugIdempotent(name: string)
    ensures Slug(Slug(name)) == Slug(name)
  {
    var s := Slug(name);
    forall i | 0 <= i < |s|
      ensures Slug(s)[i] == s[i]
    {
      assert s[i] != ' ';
    }
  }

  /** Names that differ only in the case of their letters share a slug. */
  lemma SlugIgnoresCase(name: string)
    ensures Slug(Lower(name)) == Slug(name)
  {
    forall i | 0 <= i < |name|
      ensures Slug(Lower(name))[i] == Slug(name)[i]
    {
      assert Lower(name)[i] == LowerChar(name[i]);
    }
  }

  /** gerar_link_curto: the fixed base followed by the slug. */
  function ShortLink(name: string): (r: string)
    ensures StartsWith(r, ShortLinkBase)
    ensures r[|ShortLinkBase|..] == Slug(name)
    ensures |r| == |ShortLinkBase| + |name|
  {
    ShortLinkBase + Slug(name)
  }

  /** Two names give the same short link exactly when they give the same slug. */
  lemma ShortLinkInjectiveOnSlugs(a: string, b: string)
    ensures ShortLink(a) == ShortLink(b) <==> Slug(a) == Slug(b)
  {
    if ShortLink(a) == ShortLink(b) {
      assert ShortLink(a)[|ShortLinkBase|..] == ShortLink(b)[|ShortLinkBase|..];
    }
  }
}
