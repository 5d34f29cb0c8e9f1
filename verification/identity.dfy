/**
  Article identity (ingest.py:14-16). The id is the SHA-256 hex digest of a key
  string; the digest itself is left abstract as the `digest` parameter, so every
  fact below holds for whatever function of the key is used.
 */
module Identity {
  import opened Text

  /** The f-string `{title}|{source}|{url}`. */
  function Joined(title: string, source: string, url: string): string {
    title + "|" + source + "|" + url
  }

  /** The string make_id hashes: the joined fields, lower-cased, then stripped as a whole. */
  function Key(title: string, source: string, url: string): string {
    Strip(Lower(Joined(title, source, url)))
  }

  function MakeId(digest: string -> string, title: string, source: string, url: string): string {
    digest(Key(title, source, url))
  }

  /** Lower-casing the joined key lower-cases each field and keeps the separators. */
  lemma LowerJoined(title: string, source: string, url: string)
    ensures Lower(Joined(title, source, url)) == Joined(Lower(title), Lower(source), Lower(url))
  {
    LowerConcat(title + "|" + source + "|", url);
    LowerConcat(title + "|" + source, "|");
    LowerConcat(title + "|", source);
    LowerConcat(title, "|");
    assert Lower("|") == "|";
  }

  /**
    The id ignores letter case in all three fields and whitespace at the two
    outer ends of the joined key (before the title and after the url).
   */
  lemma MakeIdNormalizes(digest: string -> string, title: string, source: string, url: string,
                         title': string, source': string, url': string, lead: string, trail: string)
    requires Lower(title') == Lower(title) && Lower(source') == Lower(source) && Lower(url') == Lower(url)
    requires AllSpace(lead) && AllSpace(trail)
    ensures MakeId(digest, lead + title', source', url' + trail) == MakeId(digest, title, source, url)
  {
    var mid := Joined(title', source', url');
    assert Joined(lead + title', source', url' + trail) == lead + mid + trail;
    LowerConcat(lead + mid, trail);
    LowerConcat(lead, mid);
    LowerKeepsSpace(lead);
    LowerKeepsSpace(trail);
    LowerJoined(title', source', url');
    LowerJoined(title, source, url);
    StripPadded(lead, Lower(mid), trail);
  }

  /**
    Whitespace next to a separator is part of the key: padding the source (or
    any inner field end) with whitespace changes the key.
   */
  lemma KeyKeepsInnerSpace(title: string, source: string, w: string, url: string)
    requires AllSpace(w) && w != []
    ensures Key(title, source + w, url) != Key(title, source, url)
  {
    var front, back := title + "|" + source, "|" + url;
    assert Joined(title, source + w, url) == front + w + back;
    assert Joined(title, source, url) == front + back;
    LowerConcat(front + w, back);
    LowerConcat(front, w);
    LowerConcat(front, back);
    LowerKeepsSpace(w);
    assert Lower(front)[|title|] == '|' && Lower(back)[0] == '|';
    StripInnerLen(Lower(front), w, Lower(back));
  }

  /** Whitespace between two parts that are not all whitespace survives strip() in full. */
  lemma StripInnerLen(a: string, w: string, b: string)
    requires !AllSpace(a) && !AllSpace(b)
    ensures |Strip(a + w + b)| == |Strip(a + b)| + |w|
  {
    ConcatAssoc(a, w, b);
    StripLeftKeep(a, w + b);
    StripLeftKeep(a, b);
    ConcatAssoc(StripLeft(a), w, b);
    StripRightConcat(StripLeft(a) + w, b);
    StripRightConcat(StripLeft(a), b);
  }

  /**
    The "|" separator can be ambiguous: moving a "|" from the end of the title
    to the start of the source keeps the same key, hence the same id.
   */
  lemma KeySeparatorAmbiguous(digest: string -> string, a: string, b: string, c: string, d: string)
    ensures MakeId(digest, a + "|" + b, c, d) == MakeId(digest, a, b + "|" + c, d)
  {
    assert Joined(a + "|" + b, c, d) == Joined(a, b + "|" + c, d);
  }
}
