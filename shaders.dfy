/**
 * The shader bank and its bookkeeping: `ShaderInfo` (a bank index and
 * optional uniforms), the uniform list `create_uniforms!` builds, the four
 * built-in programs, and `parse_includes`, which splices `#include` lines of
 * a fragment shader. The file system is a map from path to contents.
 */
module Shaders {
  import opened Errors
  import opened Shapes
  import opened Transform

  /** `ShaderInfo`: which program of the bank, and the uniforms to draw it with. */
  datatype ShaderInfo<U> = ShaderInfo(idx: nat, uniforms: Option<U>)

  function NewInfo<U>(idx: nat, uniforms: Option<U>): ShaderInfo<U> { ShaderInfo(idx, uniforms) }

  function Set<U>(info: ShaderInfo<U>, uniforms: U): ShaderInfo<U> { info.(uniforms := Some(uniforms)) }

  function GetIdx<U>(info: ShaderInfo<U>): nat { info.idx }

  /** `get_uniforms` unwraps: the uniforms must be present. */
  function GetUniforms<U>(info: ShaderInfo<U>): U
    requires info.uniforms.Some?
  {
    info.uniforms.value
  }

  /** A uniform value handed to a program. */
  datatype UValue = Matrix(m: Mat4) | Sampler(tex: Texture) | FramebufferTexture

  type Uniform = (string, UValue)

  /** The macro's copy of the current matrix, entry by entry. */
  function CopyEntries(m: Mat4): Mat4
  {
    [[m[0][0], m[0][1], m[0][2], m[0][3]],
     [m[1][0], m[1][1], m[1][2], m[1][3]],
     [m[2][0], m[2][1], m[2][2], m[2][3]],
     [m[3][0], m[3][1], m[3][2], m[3][3]]]
  }

  /** The copy holds the same entries. */
  lemma CopyIsSame(m: Mat4)
    ensures CopyEntries(m) == m
  {
    var c := CopyEntries(m);
    assert c[0] == m[0] && c[1] == m[1] && c[2] == m[2] && c[3] == m[3];
  }

  /** `create_uniforms!`: the extra named uniforms, then MVP bound to the current matrix. */
  function CreateUniforms(curr: Mat4, extras: seq<Uniform>): (u: seq<Uniform>)
    ensures |u| == |extras| + 1 && u[..|extras|] == extras
    ensures u[|extras|] == ("MVP", Matrix(curr))
  {
    CopyIsSame(curr);
    extras + [("MVP", Matrix(CopyEntries(curr)))]
  }

  /** A compiled program: the four built-in ones, or one loaded from a fragment shader. */
  datatype Program = Basic | Textured | FontDrawing | DrawFramebuffer | Loaded(fragment: string)

  /** The bank `init_shaders` builds: basic shapes, textured shapes, fonts, framebuffer blit. */
  const BuiltIn: seq<Program> := [Basic, Textured, FontDrawing, DrawFramebuffer]

  /** The program the blit in `reveal` draws with. */
  const BlitProgram: nat := 3

  /** `init_shaders`: the four programs in order; the first that fails to compile ends it. */
  function InitBank(compiles: Program -> bool): (r: Result<seq<Program>>)
    ensures r.Ok? <==> forall i :: 0 <= i < |BuiltIn| ==> compiles(BuiltIn[i])
  {
    assert BuiltIn[0] == Basic && BuiltIn[1] == Textured && BuiltIn[2] == FontDrawing && BuiltIn[3] == DrawFramebuffer;
    if !compiles(Basic) || !compiles(Textured) || !compiles(FontDrawing) || !compiles(DrawFramebuffer) then
      Err(ShaderCompileFail)
    else
      Ok(BuiltIn)
  }

  /** The glutin `init_shaders`, push by push, each compilation checked with `?`. */
  method InitShaders(compiles: Program -> bool) returns (r: Result<seq<Program>>)
    ensures r == InitBank(compiles)
  {
    var bank: seq<Program> := [];
    if !compiles(Basic) { return Err(ShaderCompileFail); }
    bank := bank + [Basic];
    if !compiles(Textured) { return Err(ShaderCompileFail); }
    bank := bank + [Textured];
    if !compiles(FontDrawing) { return Err(ShaderCompileFail); }
    bank := bank + [FontDrawing];
    if !compiles(DrawFramebuffer) { return Err(ShaderCompileFail); }
    bank := bank + [DrawFramebuffer];
    assert bank == BuiltIn;
    r := Ok(bank);
  }

  // ---------------------------------------------------------------- parse_includes

  type FileSystem = map<string, string>

  /** The position of the first `c` in `s`, if any. */
  function IndexOf(s: string, c: char): (r: Option<nat>)
    ensures r.Some? ==> r.value < |s| && s[r.value] == c && forall k :: 0 <= k < r.value ==> s[k] != c
    ensures r.None? ==> forall k :: 0 <= k < |s| ==> s[k] != c
  {
    if |s| == 0 then None
    else if s[0] == c then Some(0)
    else match IndexOf(s[1..], c)
      case None => None
      case Some(i) => Some(i + 1)
  }

  /** A line without its newline also loses a carriage return just before it. */
  function Chomp(t: string): string
  {
    if |t| > 0 && t[|t| - 1] == '\r' then t[..|t| - 1] else t
  }

  /** `BufReader::lines`: split at each newline; a final newline opens no empty line. */
  function Lines(s: string): (r: seq<string>)
    ensures |s| > 0 <==> |r| > 0
    decreases |s|
  {
    if |s| == 0 then []
    else match IndexOf(s, '\n')
      case None => [s]
      case Some(i) => [Chomp(s[..i])] + Lines(s[i + 1..])
  }

  /** `join("\n")`. */
  function Join(parts: seq<string>): string
  {
    if |parts| == 0 then ""
    else if |parts| == 1 then parts[0]
    else parts[0] + "\n" + Join(parts[1..])
  }

  predicate IsInclude(line: string)
  {
    |line| >= 8 && line[..8] == "#include"
  }

  /** `split('<').nth(1)`: the text after the first '<', up to the next '<' if there is one. */
  function SecondPiece(line: string): Option<string>
  {
    match IndexOf(line, '<')
    case None => None
    case Some(i) =>
      var rest := line[i + 1..];
      match IndexOf(rest, '<')
      case None => Some(rest)
      case Some(j) => Some(rest[..j])
  }

  /** The path an include line names: its second piece without the final character. */
  function IncludePath(line: string): Option<string>
  {
    match SecondPiece(line)
    case None => None
    case Some(p) => if |p| == 0 then None else Some(p[..|p| - 1])
  }

  /**
   * What the source unwraps and slices without checking: every include line
   * has a '<', a non-empty piece after it, and names a file that exists.
   */
  predicate Resolves(line: string, fs: FileSystem)
  {
    IsInclude(line) ==> IncludePath(line).Some? && IncludePath(line).value in fs
  }

  /** The piece a line contributes: an include line's file, any other line itself. */
  function Piece(line: string, fs: FileSystem): string
    requires Resolves(line, fs)
  {
    if IsInclude(line) then fs[IncludePath(line).value] else line
  }

  predicate AllResolve(lines: seq<string>, fs: FileSystem)
  {
    forall i :: 0 <= i < |lines| ==> Resolves(lines[i], fs)
  }

  /** The pieces of all lines, in order. */
  function Pieces(lines: seq<string>, fs: FileSystem): (r: seq<string>)
    requires AllResolve(lines, fs)
    ensures |r| == |lines|
  {
    seq(|lines|, i requires 0 <= i < |lines| => Piece(lines[i], fs))
  }

  /** What `parse_includes(filename)` returns. */
  function ParseIncludes(fs: FileSystem, filename: string): string
    requires filename in fs && AllResolve(Lines(fs[filename]), fs)
  {
    Join(Pieces(Lines(fs[filename]), fs))
  }

  /** `parse_includes`: the line loop pushing onto `totalContents`, then the join. */
  method ParseIncludesLoop(fs: FileSystem, filename: string) returns (r: string)
    requires filename in fs && AllResolve(Lines(fs[filename]), fs)
    ensures r == ParseIncludes(fs, filename)
  {
    var lines := Lines(fs[filename]);
    var totalContents: seq<string> := [];
    for k := 0 to |lines|
      invariant totalContents == Pieces(lines, fs)[..k]
    {
      var l := lines[k];
      if IsInclude(l) {
        var path := IncludePath(l).value;
        totalContents := totalContents + [fs[path]];
      } else {
        totalContents := totalContents + [l];
      }
    }
    assert totalContents == Pieces(lines, fs);
    r := Join(totalContents);
  }

  // ---------------------------------------------------------------- properties

  /** `ShaderInfo::new(i, u).get_idx() == i`; `set` replaces only the uniforms. */
  lemma InfoAccessors<U>(i: nat, u: Option<U>, v: U)
    ensures GetIdx(NewInfo(i, u)) == i
    ensures GetUniforms(Set(NewInfo(i, u), v)) == v && GetIdx(Set(NewInfo(i, u), v)) == i
  {
  }

  /** Splitting at newlines and joining with them gives the text back (no '\r', no final '\n'). */
  lemma {:induction false} JoinLines(s: string)
    requires forall k :: 0 <= k < |s| ==> s[k] != '\r'
    requires |s| == 0 || s[|s| - 1] != '\n'
    ensures Join(Lines(s)) == s
    decreases |s|
  {
    if |s| > 0 {
      match IndexOf(s, '\n')
      case None =>
      case Some(i) =>
        var head, rest := s[..i], s[i + 1..];
        assert Chomp(head) == head;
        assert |rest| > 0;
        JoinLines(rest);
        assert s == head + "\n" + rest;
    }
  }

  /** No line of the result keeps a newline. */
  lemma {:induction false} LinesHaveNoNewline(s: string)
    ensures forall i, k :: 0 <= i < |Lines(s)| && 0 <= k < |Lines(s)[i]| ==> Lines(s)[i][k] != '\n'
    decreases |s|
  {
    if |s| > 0 {
      match IndexOf(s, '\n')
      case None =>
      case Some(i) =>
        LinesHaveNoNewline(s[i + 1..]);
    }
  }

  /**
   * Piece `i` of the result is line `i` itself when it is not an include
   * line, and the whole of the named file when it is.
   */
  lemma PiecesInOrder(lines: seq<string>, fs: FileSystem, i: nat)
    requires AllResolve(lines, fs) && i < |lines|
    ensures !IsInclude(lines[i]) ==> Pieces(lines, fs)[i] == lines[i]
    ensures IsInclude(lines[i]) ==> Pieces(lines, fs)[i] == fs[IncludePath(lines[i]).value]
  {
  }

  /** A shader with no include line comes back unchanged (no '\r', no final '\n'). */
  lemma NoIncludesVerbatim(fs: FileSystem, filename: string)
    requires filename in fs
    requires forall k :: 0 <= k < |fs[filename]| ==> fs[filename][k] != '\r'
    requires |fs[filename]| == 0 || fs[filename][|fs[filename]| - 1] != '\n'
    requires forall i :: 0 <= i < |Lines(fs[filename])| ==> !IsInclude(Lines(fs[filename])[i])
    ensures AllResolve(Lines(fs[filename]), fs)
    ensures ParseIncludes(fs, filename) == fs[filename]
  {
    var lines := Lines(fs[filename]);
    assert Pieces(lines, fs) == lines;
    JoinLines(fs[filename]);
  }

  /**
   * An include line names the text between its first '<' and the final
   * character, here the closing '>': `#include <common.glsl>` names
   * `common.glsl`.
   */
  lemma IncludePathOf(pre: string, p: string)
    requires forall k :: 0 <= k < |pre| ==> pre[k] != '<'
    requires forall k :: 0 <= k < |p| ==> p[k] != '<'
    ensures IncludePath(pre + "<" + p + ">") == Some(p)
  {
    var line := pre + "<" + p + ">";
    assert line[|pre|] == '<';
    assert IndexOf(line, '<') == Some(|pre|);
    var rest := line[|pre| + 1..];
    assert rest == p + ">";
    assert IndexOf(rest, '<') == None;
    assert (p + ">")[..|p|] == p;
  }

  /** The built-in bank has four programs and the blit program is the framebuffer one. */
  lemma InitBankLayout(compiles: Program -> bool)
    requires InitBank(compiles).Ok?
    ensures |InitBank(compiles).value| == 4
    ensures InitBank(compiles).value[BlitProgram] == DrawFramebuffer
    ensures InitBank(compiles).value[0] == Basic && InitBank(compiles).value[1] == Textured
  {
  }
}
