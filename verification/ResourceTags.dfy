/** Resource group tags taken from annotations (pkg/infracluster/annotation.go). */
module ResourceTags {
  const PREFIX := "azure-resourcegroup-tag."

  predicate Prefixed(key: string) { PREFIX <= key }

  /** The tag map is right when putting the prefix back gives exactly the prefixed annotations. */
  ghost predicate TagsOfAnnotations(annotations: map<string, string>, tags: map<string, string>) {
    && (forall k | k in tags :: PREFIX + k in annotations && annotations[PREFIX + k] == tags[k])
    && (forall a | a in annotations && Prefixed(a) :: a[|PREFIX|..] in tags)
  }

  /** Nil and empty maps are not told apart. */
  method GetResourceTags(annotations: map<string, string>) returns (tags: map<string, string>)
    ensures TagsOfAnnotations(annotations, tags)
  {
    tags := map[];
    var left := annotations.Keys;
    while left != {}
      invariant left <= annotations.Keys
      invariant forall k | k in tags :: PREFIX + k in annotations && annotations[PREFIX + k] == tags[k]
      invariant forall a | a in annotations && a !in left && Prefixed(a) :: a[|PREFIX|..] in tags
    {
      var key :| key in left;
      if PREFIX <= key {
        var tagKey := key[|PREFIX|..];
        assert PREFIX + tagKey == key;
        tags := tags[tagKey := annotations[key]];
      }
      left := left - {key};
    }
  }

  function Reprefixed(tags: map<string, string>): map<string, string> {
    map a | a in (set k | k in tags :: PREFIX + k) && Prefixed(a) && a[|PREFIX|..] in tags :: tags[a[|PREFIX|..]]
  }

  /** Round trip: re-prefixing the tags gives back the prefixed annotations, and the tags are unique. */
  lemma ReprefixedTagsAreTheAnnotations(annotations: map<string, string>, tags: map<string, string>)
    requires TagsOfAnnotations(annotations, tags)
    ensures Reprefixed(tags) == map a | a in annotations && Prefixed(a) :: annotations[a]
    ensures forall other: map<string, string> | TagsOfAnnotations(annotations, other) :: other == tags
  {
    var expected := map a | a in annotations && Prefixed(a) :: annotations[a];
    forall a ensures a in Reprefixed(tags) <==> a in expected {
      if Prefixed(a) { assert PREFIX + a[|PREFIX|..] == a; }
    }
    forall a | a in expected ensures Reprefixed(tags)[a] == expected[a] {
      assert PREFIX + a[|PREFIX|..] == a;
    }
    forall other: map<string, string> | TagsOfAnnotations(annotations, other) ensures other == tags {
      SameTags(annotations, tags, other);
      SameTags(annotations, other, tags);
    }
  }

  lemma SameTags(annotations: map<string, string>, p: map<string, string>, q: map<string, string>)
    requires TagsOfAnnotations(annotations, p) && TagsOfAnnotations(annotations, q)
    ensures forall k | k in p :: k in q && p[k] == q[k]
  {}
}
