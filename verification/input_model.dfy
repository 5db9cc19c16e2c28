/**
  `Input_model::getPostVariables`: the submitted fields with surrounding
  whitespace trimmed, or NULL when nothing was submitted.
 */
module InputModel {
  import opened Wrappers
  import opened Php
  import opened Request

  /**
    The array the method works on: the argument, unless it is NULL or empty, in
    which case the request's POST data.
   */
  function EffectivePost(post: Option<Post>, requestPost: Post): (r: Post)
    ensures post.Some? && post.value != map[] ==> r == post.value
    ensures post.None? || post.value == map[] ==> r == requestPost
  {
    if post.None? || post.value == map[] then requestPost else post.value
  }

  /**
    `getPostVariables`: NULL exactly when the effective array is empty; otherwise
    the same keys, each value with PHP's default trim applied.
   */
  function GetPostVariables(post: Option<Post>, requestPost: Post): (r: Option<Post>)
    ensures var p := EffectivePost(post, requestPost);
      && (r.None? <==> p == map[])
      && (r.Some? ==> r.value.Keys == p.Keys && forall k :: k in p ==> r.value[k] == Trim(p[k]))
  {
    var p := EffectivePost(post, requestPost);
    if p == map[] then None else Some(map k | k in p :: Trim(p[k]))
  }

  /** Every returned value is trimmed and is the submitted value with only trim characters cut from its ends. */
  lemma ValuesTrimmed(post: Option<Post>, requestPost: Post, k: string)
    requires var r := GetPostVariables(post, requestPost); r.Some? && k in r.value
    ensures var p := EffectivePost(post, requestPost);
      var v := GetPostVariables(post, requestPost).value[k];
      && IsTrimmed(v)
      && exists a, b :: AllTrimChars(a) && AllTrimChars(b) && p[k] == a + v + b
  {
    var p := EffectivePost(post, requestPost);
    var a, b := TrimSplit(p[k]);
  }

  /** Cleaning already cleaned data changes nothing. */
  lemma GetPostVariablesIdempotent(post: Option<Post>, requestPost: Post)
    requires GetPostVariables(post, requestPost).Some?
    ensures var once := GetPostVariables(post, requestPost).value;
      GetPostVariables(Some(once), requestPost) == Some(once)
  {
    var once := GetPostVariables(post, requestPost).value;
    var p := EffectivePost(post, requestPost);
    forall k | k in once
      ensures Trim(once[k]) == once[k]
    {
      TrimIdempotent(p[k]);
    }
    var k0 :| k0 in p;
    assert k0 in once;
    assert EffectivePost(Some(once), requestPost) == once;
    var twice := GetPostVariables(Some(once), requestPost).value;
    assert twice == once;
  }
}
