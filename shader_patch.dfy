/** The shader-source patch of custom-homespace.js: `customHomespace` installs an
    `onBeforeCompile` hook on a material; when three.js later runs the hook on the
    shader it is compiling, the hook wires in two uniforms, puts a prefix in front of
    each shader source and replaces the first occurrence of a marker in it, as
    JavaScript's `String.prototype.replace` does with a string pattern. */
module ShaderPatch {

  import opened Options

  // ---------------------------------------------------------------------------
  // String search and replace

  /** `pattern` occurs in `s` starting at position `k`. */
  predicate OccursAt(s: string, pattern: string, k: nat)
  {
    k + |pattern| <= |s| && s[k..k + |pattern|] == pattern
  }

  /** `s.indexOf(pattern, from)`: the first position at or after `from` where
      `pattern` occurs, or none. */
  function IndexOf(s: string, pattern: string, from: nat): (r: Option<nat>)
    ensures r.Some? ==> from <= r.value && OccursAt(s, pattern, r.value)
    ensures r.Some? ==> forall k | from <= k < r.value :: !OccursAt(s, pattern, k)
    ensures r.None? ==> forall k: nat | from <= k :: !OccursAt(s, pattern, k)
    decreases |s| - from
  {
    if from + |pattern| > |s| then None
    else if OccursAt(s, pattern, from) then Some(from)
    else IndexOf(s, pattern, from + 1)
  }

  /** The replacement text `String.prototype.replace` inserts for a string pattern
      (GetSubstitution, section 22.1.3.19.1 of ECMA-262): `$$` is a dollar sign, `$&`
      the matched text, `` $` `` the text before the match, `$'` the text after it;
      with no capture groups every other `$` stands for itself. */
  function Substitution(matched: string, str: string, position: nat, replacement: string): string
    requires position + |matched| <= |str|
    decreases |replacement|
  {
    if |replacement| == 0 then ""
    else if replacement[0] == '$' && |replacement| >= 2 && replacement[1] in {'$', '&', '`', '\''} then
      var rest := Substitution(matched, str, position, replacement[2..]);
      match replacement[1]
      case '$' => "$" + rest
      case '&' => matched + rest
      case '`' => str[..position] + rest
      case _ => str[position + |matched|..] + rest
    else [replacement[0]] + Substitution(matched, str, position, replacement[1..])
  }

  /** `s.replace(pattern, replacement)` for a string pattern: only the first
      occurrence is replaced, and the replacement text goes through `Substitution`. */
  function JsReplace(s: string, pattern: string, replacement: string): string
  {
    match IndexOf(s, pattern, 0)
    case None => s
    case Some(p) => s[..p] + Substitution(pattern, s, p, replacement) + s[p + |pattern|..]
  }

  /** Replacing the first occurrence with the replacement text taken literally. */
  function ReplaceFirst(s: string, pattern: string, replacement: string): string
  {
    match IndexOf(s, pattern, 0)
    case None => s
    case Some(p) => s[..p] + replacement + s[p + |pattern|..]
  }

  /** A replacement without a dollar sign is inserted as it is. */
  lemma {:induction false} SubstitutionLiteral(matched: string, str: string, position: nat, replacement: string)
    requires position + |matched| <= |str|
    requires '$' !in replacement
    ensures Substitution(matched, str, position, replacement) == replacement
    decreases |replacement|
  {
    if |replacement| > 0 {
      assert replacement == [replacement[0]] + replacement[1..];
      SubstitutionLiteral(matched, str, position, replacement[1..]);
    }
  }

  /** So `replace` with such a replacement is a literal replace-first. */
  lemma JsReplaceLiteral(s: string, pattern: string, replacement: string)
    requires '$' !in replacement
    ensures JsReplace(s, pattern, replacement) == ReplaceFirst(s, pattern, replacement)
  {
    match IndexOf(s, pattern, 0)
    case None =>
    case Some(p) => SubstitutionLiteral(pattern, s, p, replacement);
  }

  /** A source without the pattern comes back unchanged. */
  lemma ReplaceFirstAbsent(s: string, pattern: string, replacement: string)
    requires forall k: nat :: !OccursAt(s, pattern, k)
    ensures ReplaceFirst(s, pattern, replacement) == s
  {
  }

  /** With `p` the first occurrence, the text before it is kept, the replacement
      follows, and everything after the matched text, later occurrences included, is
      kept as it was. */
  lemma ReplaceFirstAt(s: string, pattern: string, replacement: string, p: nat)
    requires OccursAt(s, pattern, p) && forall k | 0 <= k < p :: !OccursAt(s, pattern, k)
    ensures ReplaceFirst(s, pattern, replacement) == s[..p] + replacement + s[p + |pattern|..]
  {
    IndexOfFinds(s, pattern, 0, p);
  }

  /** The search from `from` stops at the first occurrence at or after it. */
  lemma {:induction false} IndexOfFinds(s: string, pattern: string, from: nat, p: nat)
    requires from <= p && OccursAt(s, pattern, p)
    requires forall k | from <= k < p :: !OccursAt(s, pattern, k)
    ensures IndexOf(s, pattern, from) == Some(p)
    decreases p - from
  {
    if from < p {
      IndexOfFinds(s, pattern, from + 1, p);
    }
  }

  // ---------------------------------------------------------------------------
  // Prefixing, then replacing

  /** No suffix of `prefix` can begin an occurrence of `pattern`: no occurrence can
      start inside the prefix, whatever follows it. */
  predicate NoOverlap(prefix: string, pattern: string)
  {
    forall k | 0 <= k < |prefix| :: !(pattern <= prefix[k..]) && !(prefix[k..] <= pattern)
  }

  /** A prefix without the pattern's first character cannot overlap it. */
  lemma FirstCharAbsent(prefix: string, pattern: string)
    requires |pattern| > 0 && pattern[0] !in prefix
    ensures NoOverlap(prefix, pattern)
  {
    forall k | 0 <= k < |prefix| ensures !(pattern <= prefix[k..]) && !(prefix[k..] <= pattern) {
      assert prefix[k..][0] == prefix[k];
    }
  }

  /** Nor can one where every occurrence of the pattern's first character is followed
      by something other than its second. */
  lemma FirstTwoCharsAbsent(prefix: string, pattern: string)
    requires |pattern| >= 2
    requires forall k | 0 <= k < |prefix| :: prefix[k] != pattern[0] || (k + 1 < |prefix| && prefix[k + 1] != pattern[1])
    ensures NoOverlap(prefix, pattern)
  {
    forall k | 0 <= k < |prefix| ensures !(pattern <= prefix[k..]) && !(prefix[k..] <= pattern) {
      assert prefix[k..][0] == prefix[k];
      if k + 1 < |prefix| {
        assert prefix[k..][1] == prefix[k + 1];
      }
    }
  }

  /** An occurrence after the prefix is an occurrence in the original text. */
  lemma OccursAfterPrefix(prefix: string, s: string, pattern: string, j: nat)
    ensures OccursAt(prefix + s, pattern, |prefix| + j) <==> OccursAt(s, pattern, j)
  {
    if j + |pattern| <= |s| {
      assert (prefix + s)[|prefix| + j..|prefix| + j + |pattern|] == s[j..j + |pattern|];
    }
  }

  /** An occurrence starting inside a prefix overlaps the prefix's tail. */
  lemma OverlapAt(prefix: string, s: string, pattern: string, k: nat)
    requires k < |prefix|
    ensures OccursAt(prefix + s, pattern, k) ==> pattern <= prefix[k..] || prefix[k..] <= pattern
  {
    var t := prefix + s;
    if OccursAt(t, pattern, k) {
      if k + |pattern| <= |prefix| {
        assert prefix[k..][..|pattern|] == t[k..k + |pattern|];
      } else {
        assert pattern[..|prefix| - k] == t[k..|prefix|] == prefix[k..];
      }
    }
  }

  /** No occurrence starts inside a prefix that cannot overlap the pattern. */
  lemma NotInPrefix(prefix: string, s: string, pattern: string, k: nat)
    requires NoOverlap(prefix, pattern) && k < |prefix|
    ensures !OccursAt(prefix + s, pattern, k)
  {
    OverlapAt(prefix, s, pattern, k);
  }

  /** Prefixing and then replacing gives the prefix followed by the replaced source:
      the prefix cannot hold the occurrence that gets replaced. */
  lemma PrefixCommutes(prefix: string, s: string, pattern: string, replacement: string)
    requires NoOverlap(prefix, pattern)
    ensures ReplaceFirst(prefix + s, pattern, replacement) == prefix + ReplaceFirst(s, pattern, replacement)
  {
    match IndexOf(s, pattern, 0)
    case None => PrefixCommutesAbsent(prefix, s, pattern, replacement);
    case Some(p) => PrefixCommutesAt(prefix, s, pattern, replacement, p);
  }

  /** `PrefixCommutes` for a source without the pattern. */
  lemma PrefixCommutesAbsent(prefix: string, s: string, pattern: string, replacement: string)
    requires NoOverlap(prefix, pattern) && forall k: nat :: !OccursAt(s, pattern, k)
    ensures ReplaceFirst(prefix + s, pattern, replacement) == prefix + s
  {
    forall k: nat ensures !OccursAt(prefix + s, pattern, k) {
      if k < |prefix| {
        NotInPrefix(prefix, s, pattern, k);
      } else {
        OccursAfterPrefix(prefix, s, pattern, k - |prefix|);
      }
    }
    ReplaceFirstAbsent(prefix + s, pattern, replacement);
  }

  /** `PrefixCommutes` for a source whose first occurrence is at `p`. */
  lemma PrefixCommutesAt(prefix: string, s: string, pattern: string, replacement: string, p: nat)
    requires NoOverlap(prefix, pattern)
    requires OccursAt(s, pattern, p) && forall k | 0 <= k < p :: !OccursAt(s, pattern, k)
    ensures ReplaceFirst(prefix + s, pattern, replacement) == prefix + (s[..p] + replacement + s[p + |pattern|..])
  {
    var t := prefix + s;
    forall k | 0 <= k < |prefix| + p ensures !OccursAt(t, pattern, k) {
      if k < |prefix| {
        NotInPrefix(prefix, s, pattern, k);
      } else {
        OccursAfterPrefix(prefix, s, pattern, k - |prefix|);
      }
    }
    OccursAfterPrefix(prefix, s, pattern, p);
    ReplaceFirstAt(t, pattern, replacement, |prefix| + p);
    assert t[..|prefix| + p] == prefix + s[..p];
    assert t[|prefix| + p + |pattern|..] == s[p + |pattern|..];
  }

  /** A replacement that begins with the pattern leaves the pattern where it was
      found, with the rest of the replacement right after it. */
  lemma PatternKept(prefix: string, s: string, pattern: string, tail: string, p: nat)
    requires NoOverlap(prefix, pattern) && '$' !in pattern + tail
    requires OccursAt(s, pattern, p) && forall k | 0 <= k < p :: !OccursAt(s, pattern, k)
    ensures var out := JsReplace(prefix + s, pattern, pattern + tail);
      && out == prefix + s[..p] + pattern + tail + s[p + |pattern|..]
      && OccursAt(out, pattern, |prefix| + p)
  {
    var replacement, before, after := pattern + tail, s[..p], s[p + |pattern|..];
    PrefixThenReplace(prefix, s, pattern, replacement);
    ReplaceFirstAt(s, pattern, replacement, p);
    assert JsReplace(prefix + s, pattern, replacement) == prefix + (before + replacement + after);
    Regroup(prefix, before, pattern, tail, after);
    OccursInMiddle(prefix + before, pattern, tail + after);
  }

  /** The two ways of grouping the pieces of the replaced text. */
  lemma Regroup(prefix: string, before: string, pattern: string, tail: string, after: string)
    ensures prefix + (before + (pattern + tail) + after) == prefix + before + pattern + tail + after
    ensures prefix + before + pattern + tail + after == (prefix + before) + pattern + (tail + after)
  {
  }

  lemma OccursInMiddle(a: string, pattern: string, b: string)
    ensures OccursAt(a + pattern + b, pattern, |a|)
  {
    assert (a + pattern + b)[|a|..|a| + |pattern|] == pattern;
  }

  /** The general form of both edits of the hook: a prefix that cannot overlap the
      pattern, then `replace` with a replacement free of `$`, is the prefix followed
      by the source with its first occurrence replaced literally. */
  lemma PrefixThenReplace(prefix: string, s: string, pattern: string, replacement: string)
    requires NoOverlap(prefix, pattern) && '$' !in replacement
    ensures JsReplace(prefix + s, pattern, replacement) == prefix + ReplaceFirst(s, pattern, replacement)
  {
    JsReplaceLiteral(prefix + s, pattern, replacement);
    PrefixCommutes(prefix, s, pattern, replacement);
  }

  // ---------------------------------------------------------------------------
  // The two edits

  /** The line put in front of the vertex shader (custom-homespace.js:5-7). */
  const VertexPrefix: string := "varying vec3 vNor;\n    "
  /** The marker searched for in the vertex shader (custom-homespace.js:11). */
  const MainPattern: string := "void main() {"
  /** What follows the marker in its replacement (custom-homespace.js:12-14). */
  const NormalLine: string := "\n        vNor = normal;\n      "
  /** The replacement (custom-homespace.js:12-14): the marker itself, then the line
      that hands the normal to the fragment shader. */
  const MainReplacement: string := MainPattern + NormalLine
  /** The marker searched for in the fragment shader (custom-homespace.js:19). */
  const MapPattern: string := "#include <map_fragment>"

  /** `customMapShader` (custom-homespace.js:24-43), line by line: the GLSL that takes
      the place of three.js's `map_fragment` chunk. */
  const CustomMapShader: string :=
    "\n"
    + "  #ifdef USE_MAP\n"
    + "    vec4 sampledDiffuseColor = texture2D( map, vUv );\n"
    + "    #ifdef DECODE_VIDEO_TEXTURE\n"
    + "      // inline sRGB decode (TODO: Remove this code when https://crbug.com/1256340 is solved)\n"
    + "      sampledDiffuseColor = vec4( mix( pow( sampledDiffuseColor.rgb * 0.9478672986 + vec3( 0.0521327014 ), vec3( 2.4 ) ), sampledDiffuseColor.rgb * 0.0773993808, vec3( lessThanEqual( sampledDiffuseColor.rgb, vec3( 0.04045 ) ) ) ), sampledDiffuseColor.w );\n"
    + "    #endif\n"
    + "    sampledDiffuseColor.rgb = smoothstep(vec3(0.01), vec3(1.0), sampledDiffuseColor.rgb);\n"
    + "    vec3 lightDir = normalize(lightPos);\n"
    + "    vec3 surfaceNormal = normalize(vNor);\n"
    + "\n"
    + "    float lambertReflection = max(0.0, dot(lightPos, surfaceNormal));\n"
    + "    lambertReflection = WrapRampNL(lambertReflection, 0.1, 0.8);\n"
    + "    \n"
    + "    // sampledDiffuseColor.rgb = mix (vec3(0.), sampledDiffuseColor.rgb, lambertReflection);\n"
    + "    sampledDiffuseColor.rgb *= lambertReflection * 1.5;\n"
    + "    \n"
    + "    diffuseColor *= sampledDiffuseColor;\n"
    + "  #endif\n"

  /** `fragmentSetup` (custom-homespace.js:45-54), line by line: the declarations put
      in front of the fragment shader. */
  const FragmentSetup: string :=
    "\n"
    + "  uniform float uTime;\n"
    + "  uniform vec3 lightPos;\n"
    + "  varying vec3 vNor;\n"
    + "\n"
    + "  float WrapRampNL(float nl, float threshold, float smoothness) {\n"
    + "    nl = smoothstep(threshold - smoothness * 0.5, threshold + smoothness * 0.5, nl);\n"
    + "    return nl;\n"
    + "  }\n"

  /** The vertex prefix cannot overlap `void main() {`, and the replacement has no
      `$` in it. */
  lemma VertexLiterals()
    ensures NoOverlap(VertexPrefix, MainPattern)
    ensures '$' !in MainReplacement
  {
    FirstTwoCharsAbsent(VertexPrefix, MainPattern);
    assert '$' !in MainPattern;
    assert '$' !in NormalLine;
  }

  /** The patched vertex shader is the prefix followed by the original source with
      its first `void main() {` replaced. */
  lemma VertexPatch(s: string)
    ensures JsReplace(VertexPrefix + s, MainPattern, MainReplacement) == VertexPrefix + ReplaceFirst(s, MainPattern, MainReplacement)
  {
    VertexLiterals();
    PrefixThenReplace(VertexPrefix, s, MainPattern, MainReplacement);
  }

  /** Where the source has `void main() {` (first at `p`), the normal line lands right
      after it, and the marker is still there, now after the prefix. */
  lemma NormalLineFollowsMain(s: string, p: nat)
    requires OccursAt(s, MainPattern, p) && forall k | 0 <= k < p :: !OccursAt(s, MainPattern, k)
    ensures var out := JsReplace(VertexPrefix + s, MainPattern, MainReplacement);
      && out == VertexPrefix + s[..p] + MainPattern + NormalLine + s[p + |MainPattern|..]
      && OccursAt(out, MainPattern, |VertexPrefix| + p)
  {
    VertexLiterals();
    PatternKept(VertexPrefix, s, MainPattern, NormalLine, p);
  }

  /** A vertex shader without `void main() {` only gets the prefix. */
  lemma VertexWithoutMain(s: string)
    requires forall k: nat :: !OccursAt(s, MainPattern, k)
    ensures JsReplace(VertexPrefix + s, MainPattern, MainReplacement) == VertexPrefix + s
  {
    VertexPatch(s);
    ReplaceFirstAbsent(s, MainPattern, MainReplacement);
  }

  /** The patched fragment shader is `fragmentSetup` followed by the original source
      with its first `#include <map_fragment>` replaced by `customMapShader`, given the
      two facts about the long literals that are read off the text rather than
      proved: `fragmentSetup` has no `#` and `customMapShader` has no `$`. */
  lemma FragmentPatch(s: string)
    requires '#' !in FragmentSetup && '$' !in CustomMapShader
    ensures JsReplace(FragmentSetup + s, MapPattern, CustomMapShader) == FragmentSetup + ReplaceFirst(s, MapPattern, CustomMapShader)
  {
    assert MapPattern[0] == '#';
    FirstCharAbsent(FragmentSetup, MapPattern);
    PrefixThenReplace(FragmentSetup, s, MapPattern, CustomMapShader);
  }

  // ---------------------------------------------------------------------------
  // The hook and the material

  /** A uniform object (`{value: ...}`), shared by reference and never inspected. */
  class Uniform {
    constructor () {}
  }

  /** The caller's uniforms object: the hook reads its `uTime` and `lightPos` when it
      runs, not when it is installed. A missing entry is `undefined`, here `null`. */
  class Uniforms {
    var uTime: Uniform?
    var lightPos: Uniform?

    constructor (uTime: Uniform?, lightPos: Uniform?)
      ensures this.uTime == uTime && this.lightPos == lightPos
    {
      this.uTime := uTime;
      this.lightPos := lightPos;
    }
  }

  /** The shader three.js hands to `onBeforeCompile`: its two sources and its uniforms
      by name. */
  class Shader {
    var vertexShader: string
    var fragmentShader: string
    var uniforms: map<string, Uniform?>

    constructor (vertexShader: string, fragmentShader: string, uniforms: map<string, Uniform?>)
      ensures this.vertexShader == vertexShader && this.fragmentShader == fragmentShader
      ensures this.uniforms == uniforms
    {
      this.vertexShader := vertexShader;
      this.fragmentShader := fragmentShader;
      this.uniforms := uniforms;
    }
  }

  /** The closure `customHomespace` installs: it keeps the caller's uniforms object. */
  datatype Hook = HomespaceHook(uniforms: Uniforms)

  class Material {
    var onBeforeCompile: Option<Hook>

    constructor ()
      ensures onBeforeCompile == None
    {
      onBeforeCompile := None;
    }
  }

  /** `customHomespace(material, uniforms)` (custom-homespace.js:1-2, 22-23): it only
      installs the hook; no shader source is touched until three.js runs it. */
  method CustomHomespace(material: Material, uniforms: Uniforms)
    modifies material
    ensures material.onBeforeCompile == Some(HomespaceHook(uniforms))
  {
    material.onBeforeCompile := Some(HomespaceHook(uniforms));
  }

  /** The hook run on `shader` (custom-homespace.js:3-21): `uTime` and `lightPos` are
      set to the caller's uniform objects as they are now and every other uniform
      entry is kept; the vertex source gets its prefix and its first `void main() {`
      replaced, the fragment source `fragmentSetup` and its first
      `#include <map_fragment>` replaced. */
  method RunHook(hook: Hook, shader: Shader)
    modifies shader
    ensures shader.uniforms == old(shader.uniforms)["uTime" := hook.uniforms.uTime]["lightPos" := hook.uniforms.lightPos]
    ensures shader.vertexShader == JsReplace(VertexPrefix + old(shader.vertexShader), MainPattern, MainReplacement)
    ensures shader.fragmentShader == JsReplace(FragmentSetup + old(shader.fragmentShader), MapPattern, CustomMapShader)
  {
    shader.uniforms := shader.uniforms["uTime" := hook.uniforms.uTime];
    shader.uniforms := shader.uniforms["lightPos" := hook.uniforms.lightPos];
    shader.vertexShader := VertexPrefix + shader.vertexShader;
    shader.vertexShader := JsReplace(shader.vertexShader, MainPattern, MainReplacement);
    shader.fragmentShader := FragmentSetup + shader.fragmentShader;
    shader.fragmentShader := JsReplace(shader.fragmentShader, MapPattern, CustomMapShader);
  }
}
