/**
 * The two name sanitisers of the build helper: the prefix of the temporary
 * file a fast link writes, and the C identifier a resource file is exported
 * under. Both map a set of punctuation characters to '_'.
 */
module Names {
  import opened Text

  /** `s` with every character of `chars` replaced by '_', defined position by position. */
  function Masked(s: string, chars: seq<char>): (r: string)
    ensures |r| == |s|
  {
    seq(|s|, i requires 0 <= i < |s| => if s[i] in chars then '_' else s[i])
  }

  /** No masked character survives, as long as '_' itself is not one of them. */
  lemma MaskedAvoids(s: string, chars: seq<char>)
    requires '_' !in chars
    ensures forall i, c :: 0 <= i < |s| && c in chars ==> Masked(s, chars)[i] != c
  {
  }

  /** Masking a second time changes nothing. */
  lemma MaskedIdempotent(s: string, chars: seq<char>)
    ensures Masked(Masked(s, chars), chars) == Masked(s, chars)
  {
  }

  /** A text is left alone exactly when it holds none of the masked characters. */
  lemma MaskedFixed(s: string, chars: seq<char>)
    requires '_' !in chars
    ensures Masked(s, chars) == s <==> forall i :: 0 <= i < |s| ==> s[i] !in chars
  {
    if Masked(s, chars) == s {
      forall i | 0 <= i < |s|
        ensures s[i] !in chars
      {
        assert Masked(s, chars)[i] == s[i];
      }
    }
  }

  /** Replacing one more character after masking is masking with that character added. */
  lemma ReplaceAfterMask(s: string, chars: seq<char>, c: char)
    ensures ReplaceChar(Masked(s, chars), c, '_') == Masked(s, chars + [c])
  {
    var r := ReplaceChar(Masked(s, chars), c, '_');
    forall i | 0 <= i < |s|
      ensures r[i] == Masked(s, chars + [c])[i]
    {
      assert s[i] in chars + [c] <==> s[i] in chars || s[i] == c;
    }
  }

  /** The file-name prefix `_fast_link_helper` asks mkstemp for. */
  function TempPrefix(target: string): (prefix: string)
    ensures prefix == "blade_" + Masked(target, ['/', '.'])
    ensures |prefix| == |target| + 6
    ensures '/' !in prefix && '.' !in prefix
  {
    var noSlash := ReplaceChar(target, '/', '_');
    ReplaceAfterMask(target, [], '/');
    assert Masked(target, []) == target;
    ReplaceAfterMask(target, ['/'], '.');
    assert ['/'] + ['.'] == ['/', '.'];
    MaskedAvoids(target, ['/', '.']);
    "blade_" + ReplaceChar(noSlash, '.', '_')
  }

  /**
   * Different targets can share a prefix: "a/b", "a.b" and "a_b" all give
   * "blade_a_b", so only mkstemp's random part keeps the temporary files apart.
   */
  lemma TempPrefixCollides(sep: char)
    requires sep == '/' || sep == '.' || sep == '_'
    ensures TempPrefix(['a', sep, 'b']) == "blade_a_b"
  {
    var m := Masked(['a', sep, 'b'], ['/', '.']);
    assert m[0] == 'a' && m[1] == '_' && m[2] == 'b';
    assert m == "a_b";
  }

  /** The characters a resource path has replaced by '_', in the order they are replaced. */
  const ResourceSeparators: seq<char> := [',', '-', '/', '.', '+']

  /** The C name of a resource file: each separator in turn is replaced by '_'. */
  method ResourceVarName(path: string) returns (name: string)
    ensures name == Masked(path, ResourceSeparators)
  {
    name := path;
    assert Masked(path, []) == path;
    for k := 0 to |ResourceSeparators|
      invariant name == Masked(path, ResourceSeparators[..k])
    {
      ReplaceAfterMask(path, ResourceSeparators[..k], ResourceSeparators[k]);
      assert ResourceSeparators[..k + 1] == ResourceSeparators[..k] + [ResourceSeparators[k]];
      name := ReplaceChar(name, ResourceSeparators[k], '_');
    }
    assert ResourceSeparators[..|ResourceSeparators|] == ResourceSeparators;
  }

  /**
   * The resource name keeps the length of the path, holds no separator, and
   * sanitising it again leaves it unchanged.
   */
  lemma ResourceVarNameClean(path: string)
    ensures |Masked(path, ResourceSeparators)| == |path|
    ensures forall i :: 0 <= i < |path| ==> Masked(path, ResourceSeparators)[i] !in ResourceSeparators
    ensures Masked(Masked(path, ResourceSeparators), ResourceSeparators) == Masked(path, ResourceSeparators)
  {
    MaskedAvoids(path, ResourceSeparators);
    MaskedIdempotent(path, ResourceSeparators);
  }
}
