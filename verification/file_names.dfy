/** Result-file names as the reader rebuilds them: the two `str.format`
    templates for latency and resources files, and `os.path.join` on POSIX
    paths. */
module FileNames {
  import opened Text

  /** One piece of a `str.format` template: literal text or a named field. */
  datatype Piece = Lit(text: string) | IpcField | TimeField | StressField

  type Template = seq<Piece>

  /** `'latency_all_ipc-{ipc}_{time}s_{stress}.txt'`. */
  function LatencyTemplate(): Template
  {
    [Lit("latency_all_ipc-"), IpcField, Lit("_"), TimeField, Lit("s_"), StressField, Lit(".txt")]
  }

  /** `'resources_ipc-{ipc}_{time}s_{stress}.txt'`. */
  function ResourcesTemplate(): Template
  {
    [Lit("resources_ipc-"), IpcField, Lit("_"), TimeField, Lit("s_"), StressField, Lit(".txt")]
  }

  /** The text one piece contributes; integer fields are rendered by `str`. */
  function PieceText(p: Piece, ipc: int, time: int, stress: string): string
  {
    match p
    case Lit(text) => text
    case IpcField => IntToString(ipc)
    case TimeField => IntToString(time)
    case StressField => stress
  }

  /** `template.format(ipc=ipc, time=time, stress=stress)`: the pieces' texts in order. */
  function Format(template: Template, ipc: int, time: int, stress: string): string
  {
    if |template| == 0 then "" else PieceText(template[0], ipc, time, stress) + Format(template[1..], ipc, time, stress)
  }

  /** The name a template yields, spelled out field by field: a kind prefix,
      `_ipc-`, the ipc flag, `_`, the duration, `s_`, the stress level, `.txt`. */
  function FieldsName(kind: string, ipc: int, time: int, stress: string): string
  {
    kind + "_ipc-" + IntToString(ipc) + "_" + IntToString(time) + "s_" + stress + ".txt"
  }

  /** A template of the shape `<kind>_ipc-{ipc}_{time}s_{stress}.txt`. */
  function KindTemplate(kind: string): Template
  {
    [Lit(kind + "_ipc-"), IpcField, Lit("_"), TimeField, Lit("s_"), StressField, Lit(".txt")]
  }

  /** A seven-piece template formats to its pieces' texts in order. */
  lemma FormatSeven(t: Template, ipc: int, time: int, stress: string)
    requires |t| == 7
    ensures Format(t, ipc, time, stress) ==
              PieceText(t[0], ipc, time, stress) + (PieceText(t[1], ipc, time, stress) +
              (PieceText(t[2], ipc, time, stress) + (PieceText(t[3], ipc, time, stress) +
              (PieceText(t[4], ipc, time, stress) + (PieceText(t[5], ipc, time, stress) +
              (PieceText(t[6], ipc, time, stress) + ""))))))
  {
    forall k | 0 <= k < 7
      ensures Format(t[k..], ipc, time, stress) == PieceText(t[k], ipc, time, stress) + Format(t[k + 1..], ipc, time, stress)
    {
      assert t[k..][0] == t[k] && t[k..][1..] == t[k + 1..];
    }
    assert t[7..] == [];
    assert t[0..] == t;
  }

  /** Kept apart from the lemma below, where the literal pieces make the same
      regrouping too expensive to prove in place. */
  lemma Regroup(p: string, a: string, i: string, u: string, d: string, s: string, l: string, x: string)
    ensures p + a + i + u + d + s + l + x == (p + a) + (i + (u + (d + (s + (l + (x + ""))))))
  {
  }

  lemma FormatKindTemplate(kind: string, ipc: int, time: int, stress: string)
    ensures Format(KindTemplate(kind), ipc, time, stress) == FieldsName(kind, ipc, time, stress)
  {
    FormatSeven(KindTemplate(kind), ipc, time, stress);
    Regroup(kind, "_ipc-", IntToString(ipc), "_", IntToString(time), "s_", stress, ".txt");
  }

  /** Both reader templates have the field layout the benchmark writes. */
  lemma TemplatesSpelledOut(ipc: int, time: int, stress: string)
    ensures Format(LatencyTemplate(), ipc, time, stress) == FieldsName("latency_all", ipc, time, stress)
    ensures Format(ResourcesTemplate(), ipc, time, stress) == FieldsName("resources", ipc, time, stress)
  {
    assert "latency_all" + "_ipc-" == "latency_all_ipc-";
    assert "resources" + "_ipc-" == "resources_ipc-";
    assert LatencyTemplate() == KindTemplate("latency_all");
    assert ResourcesTemplate() == KindTemplate("resources");
    FormatKindTemplate("latency_all", ipc, time, stress);
    FormatKindTemplate("resources", ipc, time, stress);
  }

  predicate StartsWithSlash(s: string)
  {
    |s| > 0 && s[0] == '/'
  }

  predicate EndsWithSlash(s: string)
  {
    |s| > 0 && s[|s| - 1] == '/'
  }

  /** POSIX `os.path.join(a, b)`: an absolute `b` replaces `a`; otherwise `b` is
      appended, with a `/` in between unless `a` is empty or already ends in one. */
  function PathJoin(a: string, b: string): (r: string)
    ensures StartsWithSlash(b) ==> r == b
    ensures !StartsWithSlash(b) ==> |r| == |a| + |b| + (if a == "" || EndsWithSlash(a) then 0 else 1)
    ensures !StartsWithSlash(b) ==> HasPrefix(r, a) && r[|r| - |b|..] == b
    ensures !StartsWithSlash(b) && a != "" && !EndsWithSlash(a) ==> r[|a|] == '/'
  {
    if StartsWithSlash(b) then b
    else if a == "" || EndsWithSlash(a) then a + b
    else a + "/" + b
  }

  /** `os.path.join(a, b)` of a plain directory and a plain relative name. */
  lemma PathJoinStep(a: string, b: string)
    requires a != "" && !EndsWithSlash(a)
    requires b != "" && !StartsWithSlash(b) && !EndsWithSlash(b)
    ensures PathJoin(a, b) == a + "/" + b
    ensures PathJoin(a, b) != "" && !EndsWithSlash(PathJoin(a, b))
  {
    var ab := a + "/" + b;
    assert ab[|ab| - 1] == b[|b| - 1];
  }

  /** `os.path.join(a, b, c, d)` on plain relative components is `a/b/c/d`. */
  lemma PathJoinPlain(a: string, b: string, c: string, d: string)
    requires a != "" && !EndsWithSlash(a)
    requires b != "" && !StartsWithSlash(b) && !EndsWithSlash(b)
    requires c != "" && !StartsWithSlash(c) && !EndsWithSlash(c)
    requires !StartsWithSlash(d)
    ensures PathJoin(PathJoin(PathJoin(a, b), c), d) == a + "/" + b + "/" + c + "/" + d
  {
    PathJoinStep(a, b);
    PathJoinStep(a + "/" + b, c);
  }
}
