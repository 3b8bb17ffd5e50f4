/** What the emitted path matchers mean: element-wise prefix on '/'-split paths. */
module Paths {
  import opened Strings
  import opened Routes
  import opened Serving

  /** Some matcher in the list accepts the path; an empty list accepts every path. */
  predicate Accepts(w: World, patterns: seq<string>, path: string) {
    patterns == [] || exists p :: p in patterns && PathMatches(w, p, path)
  }

  /** Which request paths a Kubernetes path selects, read off the Ingress. Paths with glob
      characters are passed on to Caddy's glob matcher unread. */
  predicate PathSelects(w: World, path: string, pt: Option<PathType>, req: string) {
    if path == "" || path == "/" then true
    else if !GlobFree(path) then Accepts(w, ConvertPath(path, pt), req)
    else if pt == Some(Exact) then req == path
    else if EndsWith(path, "/") then path <= req
    else Split(path, '/') <= Split(req, '/')
  }

  lemma {:induction false} ElementwisePrefix(p: string, r: string)
    ensures Split(p, '/') <= Split(r, '/') <==> (r == p || p + "/" <= r)
  {
    var sp, sr := Split(p, '/'), Split(r, '/');
    if p == "" {
      assert sp <= sr <==> sr[0] == "";
    } else if r == "" {
      assert |p + "/"| > |r|;
      assert |sp| >= 2 || sp[0] != "";
    } else {
      ElementwisePrefix(p[1..], r[1..]);
      var tp, tr := Split(p[1..], '/'), Split(r[1..], '/');
      assert r == p <==> r[0] == p[0] && r[1..] == p[1..] by {
        assert r == [r[0]] + r[1..] && p == [p[0]] + p[1..];
      }
      assert p + "/" <= r <==> p[0] == r[0] && p[1..] + "/" <= r[1..] by {
        assert p + "/" == [p[0]] + (p[1..] + "/");
        assert r == [r[0]] + r[1..];
      }
      if p[0] == '/' && r[0] == '/' {
        assert sp <= sr <==> tp <= tr by { assert sp[1..] == tp && sr[1..] == tr; PrefixCons(sp, sr); }
      } else if p[0] == '/' {
        assert sp[0] == "" && sr[0] != "";
      } else if r[0] == '/' {
        assert sp[0] != "" && sr[0] == "";
      } else {
        SplitHeads(p[0], r[0], tp, tr);
      }
    }
  }

  lemma PrefixCons<T>(a: seq<T>, b: seq<T>)
    requires |a| > 0 && |b| > 0
    ensures a <= b <==> a[0] == b[0] && a[1..] <= b[1..]
  {
    assert a == [a[0]] + a[1..] && b == [b[0]] + b[1..];
  }

  lemma SplitHeads(c: char, d: char, tp: seq<string>, tr: seq<string>)
    requires |tp| > 0 && |tr| > 0
    ensures [[c] + tp[0]] + tp[1..] <= [[d] + tr[0]] + tr[1..] <==> c == d && tp <= tr
  {
    var a, b := [[c] + tp[0]] + tp[1..], [[d] + tr[0]] + tr[1..];
    PrefixCons(a, b);
    PrefixCons(tp, tr);
    assert a[1..] == tp[1..] && b[1..] == tr[1..];
    assert [c] + tp[0] == [d] + tr[0] <==> c == d && tp[0] == tr[0] by {
      assert ([c] + tp[0])[1..] == tp[0] && ([d] + tr[0])[1..] == tr[0];
    }
  }

  lemma StarSuffix(w: World, path: string, req: string)
    requires GlobFree(path)
    ensures PathMatches(w, path + "*", req) <==> path <= req
  {
    assert (path + "*")[|path|] == '*';
    assert (path + "*")[..|path|] == path;
  }

  lemma PrefixPathMeaning(w: World, path: string, pt: Option<PathType>, req: string)
    requires GlobFree(path) && path != "" && path != "/" && pt != Some(Exact)
    ensures !EndsWith(path, "/") ==>
              (Accepts(w, ConvertPath(path, pt), req) <==> Split(path, '/') <= Split(req, '/'))
    ensures EndsWith(path, "/") ==> (Accepts(w, ConvertPath(path, pt), req) <==> path <= req)
  {
    var patterns := ConvertPath(path, pt);
    if EndsWith(path, "/") {
      StarSuffix(w, path, req);
      assert patterns == [path + "*"];
      assert patterns[0] in patterns;
    } else {
      StarSuffix(w, path + "/", req);
      assert path + "/*" == path + "/" + "*";
      assert patterns == [path, path + "/*"];
      assert patterns[0] in patterns && patterns[1] in patterns;
      ElementwisePrefix(path, req);
    }
  }

  /** For every path and path type the emitted matchers accept what the path selects. */
  lemma MatchersMeanSelection(w: World, path: string, pt: Option<PathType>, req: string)
    ensures Accepts(w, ConvertPath(path, pt), req) <==> PathSelects(w, path, pt, req)
  {
    if path == "" || path == "/" || !GlobFree(path) {
    } else if pt == Some(Exact) {
      assert ConvertPath(path, pt) == [path];
      assert ConvertPath(path, pt)[0] in ConvertPath(path, pt);
    } else {
      PrefixPathMeaning(w, path, pt, req);
    }
  }

  /** pathType Exact selects exactly its own path, except for "" and "/": the root test
      comes before the path type is looked at, so they select every request. */
  lemma ExactMeansEqualExactlyOffRoot(w: World, path: string)
    requires GlobFree(path)
    ensures (forall req :: Accepts(w, ConvertPath(path, Some(Exact)), req) <==> req == path)
            <==> path != "" && path != "/"
  {
    if path == "" || path == "/" {
      assert Accepts(w, ConvertPath(path, Some(Exact)), "/a") && "/a" != path;
    } else {
      forall req ensures Accepts(w, ConvertPath(path, Some(Exact)), req) <==> req == path {
        MatchersMeanSelection(w, path, Some(Exact), req);
      }
    }
  }
}
