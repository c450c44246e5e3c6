/** The environment-variable key of a field: prefix, upper-cased identifier, suffix. */
module Naming {
  import opened Ascii

  function EnvKey(prefix: string, ident: string, suffix: string): (key: string)
    ensures |key| == |prefix| + |ident| + |suffix|
    ensures key[..|prefix|] == prefix
    ensures key[|prefix|..|prefix| + |ident|] == ToUpper(ident)
    ensures key[|prefix| + |ident|..] == suffix
  {
    prefix + ToUpper(ident) + suffix
  }

  /**
   * Two identifiers get the same key exactly when they agree after upper-casing
   * (so `dog` and `Dog` collide; nothing rejects that).
   */
  lemma SameKeyIff(prefix: string, a: string, b: string, suffix: string)
    ensures EnvKey(prefix, a, suffix) == EnvKey(prefix, b, suffix) <==> ToUpper(a) == ToUpper(b)
  {
    if EnvKey(prefix, a, suffix) == EnvKey(prefix, b, suffix) {
      var k := EnvKey(prefix, a, suffix);
      assert |a| == |b|;
      assert ToUpper(a) == k[|prefix|..|prefix| + |a|] == ToUpper(b);
    }
  }

  lemma FileKey()
    ensures EnvKey("ENV_", "file", "") == "ENV_FILE"
  {
    assert ToUpper("file") == "FILE";
  }
}
