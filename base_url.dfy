/** The base-URL normalisation shared by the client and the three relays:
    trim, drop every trailing `/`, then drop one trailing `/v1`, so that the
    endpoint paths (which all start with `/v1/`) are never doubled. */
module BaseUrl {
  import opened JsString

  function Slashes(k: nat): (r: string)
    ensures |r| == k && forall i :: 0 <= i < k ==> r[i] == '/'
  {
    seq(k, _ => '/')
  }

  /** `s.replace(/\/+$/, '')` */
  function StripTrailingSlashes(s: string): (r: string)
    ensures r == [] || r[|r| - 1] != '/'
    ensures |r| <= |s| && s == r + Slashes(|s| - |r|)
  {
    if |s| > 0 && s[|s| - 1] == '/' then
      var r := StripTrailingSlashes(s[..|s| - 1]);
      assert s == s[..|s| - 1] + ['/'];
      r
    else s
  }

  predicate EndsWithV1(s: string) {
    |s| >= 3 && s[|s| - 3..] == "/v1"
  }

  /** `s.replace(/\/v1$/, '')` */
  function StripV1(s: string): (r: string) {
    if EndsWithV1(s) then s[..|s| - 3] else s
  }

  /** `raw.trim().replace(/\/+$/, '').replace(/\/v1$/, '')` */
  function Normalize(raw: string): string {
    StripV1(StripTrailingSlashes(Trim(raw)))
  }

  /** A base that normalisation leaves as it is. */
  predicate Clean(b: string) {
    b == [] || (!IsSpace(b[0]) && !IsSpace(b[|b| - 1]) && b[|b| - 1] != '/' && !EndsWithV1(b))
  }

  lemma {:induction false} StripSlashesOf(b: string, k: nat)
    requires b == [] || b[|b| - 1] != '/'
    ensures StripTrailingSlashes(b + Slashes(k)) == b
  {
    if k > 0 {
      var s := b + Slashes(k);
      assert s[..|s| - 1] == b + Slashes(k - 1);
      StripSlashesOf(b, k - 1);
    } else {
      assert b + Slashes(0) == b;
    }
  }

  /** Any run of trailing slashes after a clean base is dropped. */
  lemma {:induction false} NormalizeDropsTrailingSlashes(b: string, k: nat)
    requires Clean(b)
    ensures Normalize(b + Slashes(k)) == b
  {
    var s := b + Slashes(k);
    if b != [] {
      assert s[0] == b[0];
    }
    if k == 0 {
      assert s == b;
    } else {
      assert s[|s| - 1] == '/';
    }
    TrimUnchanged(s);
    StripSlashesOf(b, k);
    assert StripV1(b) == b;
  }

  lemma StripV1Of(b: string)
    ensures StripV1(b + "/v1") == b
  {
    var s := b + "/v1";
    assert s[|s| - 3..] == "/v1";
    assert s[..|s| - 3] == b;
  }

  lemma V1SuffixTrimmed(b: string, k: nat)
    requires b == [] || !IsSpace(b[0])
    ensures Trim(b + "/v1" + Slashes(k)) == b + "/v1" + Slashes(k)
  {
    var s := b + "/v1" + Slashes(k);
    assert s[0] == if b == [] then '/' else b[0];
    assert s[|s| - 1] == if k == 0 then '1' else '/';
    TrimUnchanged(s);
  }

  /** A base written with a trailing `/v1`, `b/v1` followed by any slashes,
      loses exactly that one `/v1`: `b` itself may still end in `/v1`. */
  lemma {:induction false} NormalizeDropsOneV1(b: string, k: nat)
    requires b == [] || !IsSpace(b[0])
    ensures Normalize(b + "/v1" + Slashes(k)) == b
  {
    var s := b + "/v1" + Slashes(k);
    V1SuffixTrimmed(b, k);
    StripSlashesOf(b + "/v1", k);
    assert StripTrailingSlashes(Trim(s)) == b + "/v1";
    StripV1Of(b);
  }

  /** A clean base is a fixed point. */
  lemma NormalizeClean(b: string)
    requires Clean(b)
    ensures Normalize(b) == b
  {
    NormalizeDropsTrailingSlashes(b, 0);
    assert b + Slashes(0) == b;
  }
}
