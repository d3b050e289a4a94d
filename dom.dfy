/** The document's script elements, in document order, with the queries and edits the
    loaders make: querySelector / querySelectorAll by src, appendChild and removeChild. */
module Dom {

  type Url = string

  /** The handler a script element runs when it has loaded. */
  datatype Onload = NoOnload | RunHandleScriptLoad | RunHandleGetCurrentPosition

  datatype Script = Script(src: Url, onload: Onload)

  /** The naver maps main script (SCRIPT_URL). The constants file that defines it is not part of
      this model; any URL distinct from the four feature scripts serves. */
  const MainScriptUrl: Url := "https://oapi.map.naver.com/openapi/v3/maps.js"

  /** Number of scripts whose src is u: the length of querySelectorAll(`script[src="u"]`). */
  function Count(s: seq<Script>, u: Url): (n: nat)
    ensures n <= |s|
  {
    if s == [] then 0 else (if s[0].src == u then 1 else 0) + Count(s[1..], u)
  }

  /** The count is zero exactly when no script in the document has that src. */
  lemma {:induction false} CountZeroIffNone(s: seq<Script>, u: Url)
    ensures Count(s, u) == 0 <==> forall i :: 0 <= i < |s| ==> s[i].src != u
  {
    if s != [] {
      CountZeroIffNone(s[1..], u);
      assert forall i :: 1 <= i < |s| ==> s[i] == s[1..][i - 1];
    }
  }

  /** querySelector(`script[src="u"]`) finds an element: some script has src u. */
  predicate Has(s: seq<Script>, u: Url)
    ensures Has(s, u) <==> exists i :: 0 <= i < |s| && s[i].src == u
  {
    CountZeroIffNone(s, u);
    Count(s, u) > 0
  }

  predicate Distinct(urls: seq<Url>)
  {
    forall i, j :: 0 <= i < j < |urls| ==> urls[i] != urls[j]
  }

  /** Script elements for the given URLs, in order, each with the given onload. */
  function Tags(urls: seq<Url>, h: Onload): seq<Script>
  {
    seq(|urls|, i requires 0 <= i < |urls| => Script(urls[i], h))
  }

  /** The document after removeChild of the first script whose src is u (the element
      querySelector returns); the document is unchanged when there is none. */
  function RemoveFirst(s: seq<Script>, u: Url): (r: seq<Script>)
    ensures Count(r, u) == if Count(s, u) > 0 then Count(s, u) - 1 else 0
    ensures forall v :: v != u ==> Count(r, v) == Count(s, v)
    ensures Count(s, u) == 0 ==> r == s
    ensures |r| == if Count(s, u) > 0 then |s| - 1 else |s|
  {
    if s == [] then []
    else if s[0].src == u then s[1..]
    else [s[0]] + RemoveFirst(s[1..], u)
  }

  /** The document without any script whose src is u, the others kept in order. */
  function Without(s: seq<Script>, u: Url): (r: seq<Script>)
    ensures Count(r, u) == 0
    ensures forall v :: v != u ==> Count(r, v) == Count(s, v)
  {
    if s == [] then []
    else if s[0].src == u then Without(s[1..], u)
    else [s[0]] + Without(s[1..], u)
  }

  lemma {:induction false} CountConcat(a: seq<Script>, b: seq<Script>, u: Url)
    ensures Count(a + b, u) == Count(a, u) + Count(b, u)
  {
    if a == [] {
      assert a + b == b;
    } else {
      assert (a + b)[1..] == a[1..] + b;
      CountConcat(a[1..], b, u);
    }
  }

  /** Among script elements made for distinct URLs, exactly one carries each of those URLs. */
  lemma {:induction false} CountTagsDistinct(urls: seq<Url>, h: Onload, u: Url)
    requires Distinct(urls)
    ensures Count(Tags(urls, h), u) == if u in urls then 1 else 0
  {
    if urls != [] {
      var t := Tags(urls, h);
      assert t[1..] == Tags(urls[1..], h);
      assert urls[0] !in urls[1..];
      assert u in urls <==> u == urls[0] || u in urls[1..] by {
        assert urls == [urls[0]] + urls[1..];
      }
      CountTagsDistinct(urls[1..], h, u);
    }
  }

  /** Removing every copy of u after removing its first copy is removing every copy of u. */
  lemma {:induction false} WithoutRemoveFirst(s: seq<Script>, u: Url)
    ensures Without(RemoveFirst(s, u), u) == Without(s, u)
  {
    if s != [] && s[0].src != u {
      var t := RemoveFirst(s[1..], u);
      assert ([s[0]] + t)[0] == s[0] && ([s[0]] + t)[1..] == t;
      WithoutRemoveFirst(s[1..], u);
    }
  }

  /** A document with no copy of u is its own filter. */
  lemma {:induction false} WithoutAbsent(s: seq<Script>, u: Url)
    requires Count(s, u) == 0
    ensures Without(s, u) == s
  {
    if s != [] {
      WithoutAbsent(s[1..], u);
      assert s == [s[0]] + s[1..];
    }
  }

  lemma {:induction false} WithoutConcat(a: seq<Script>, b: seq<Script>, u: Url)
    ensures Without(a + b, u) == Without(a, u) + Without(b, u)
  {
    if a == [] {
      assert a + b == b;
    } else {
      assert (a + b)[1..] == a[1..] + b;
      WithoutConcat(a[1..], b, u);
    }
  }

  /** The page's document: its script elements in document order. */
  class Document {
    var scripts: seq<Script>

    constructor (scripts: seq<Script>)
      ensures this.scripts == scripts
    {
      this.scripts := scripts;
    }

    /** `document.head.appendChild(script)`. */
    method AppendChild(script: Script)
      modifies this
      ensures scripts == old(scripts) + [script]
    {
      scripts := scripts + [script];
    }

    /** `existing.parentNode.removeChild(existing)` for the first script whose src is u. */
    method RemoveFirstWithSrc(u: Url)
      modifies this
      ensures scripts == RemoveFirst(old(scripts), u)
    {
      scripts := RemoveFirst(scripts, u);
    }
  }
}
