/**
  Template lookup. The generators never name a template directly: they compose
  `dataset + "_" + model + "_zero_shot_template"` (or `"_few_shot_template"`)
  from their string arguments and look the result up among the module's global
  names. The only globals with those suffixes are the 24 templates, so the
  lookup is modelled as a search of the 24 defined names.

  The composed key is a plain concatenation, so it is not injective and it
  cannot produce every defined name: the templates without a model suffix of
  semeval2016 and PStance are unreachable, because the key always has an
  underscore right after the dataset argument.
 */
module Registry {
  import opened Common
  import opened Strings
  import opened Prompts

  datatype Shot = ZeroShot | FewShot

  /** A defined template: a (dataset, model) pair and its shot kind. */
  datatype Template = Template(id: TemplateId, shot: Shot)

  function DatasetPrefix(d: Dataset): string {
    match d
    case SemEval2016 => "semeval2016"
    case TwitterStanceKemlm => "twitter_stance_kemlm"
    case PStance => "PStance"
  }

  function ModelInfix(m: Model): string {
    match m
    case Plain => ""
    case Llama2 => "_llama2"
    case Mistral => "_mistral"
    case Qwen2 => "_qwen2"
  }

  function ShotSuffix(s: Shot): string {
    match s
    case ZeroShot => "_zero_shot_template"
    case FewShot => "_few_shot_template"
  }

  /** The name under which the source defines a template. */
  function DefinedName(t: Template): string {
    DatasetPrefix(t.id.dataset) + ModelInfix(t.id.model) + ShotSuffix(t.shot)
  }

  /** The (dataset, model) pairs, each of which has a zero-shot and a few-shot template. */
  function AllPairs(): seq<TemplateId> {
    [TemplateId(SemEval2016, Plain), TemplateId(SemEval2016, Llama2),
     TemplateId(SemEval2016, Mistral), TemplateId(SemEval2016, Qwen2),
     TemplateId(TwitterStanceKemlm, Plain), TemplateId(TwitterStanceKemlm, Llama2),
     TemplateId(TwitterStanceKemlm, Mistral), TemplateId(TwitterStanceKemlm, Qwen2),
     TemplateId(PStance, Plain), TemplateId(PStance, Llama2),
     TemplateId(PStance, Mistral), TemplateId(PStance, Qwen2)]
  }

  /** All 24 templates. */
  function AllTemplates(): seq<Template> {
    var ids := AllPairs();
    seq(|ids|, i requires 0 <= i < |ids| => Template(ids[i], ZeroShot)) +
    seq(|ids|, i requires 0 <= i < |ids| => Template(ids[i], FewShot))
  }

  lemma AllTemplatesComplete(t: Template)
    ensures t in AllTemplates()
  {
    var ids := AllPairs();
    var k := match t.id.dataset
      case SemEval2016 => 0
      case TwitterStanceKemlm => 4
      case PStance => 8;
    var j := match t.id.model
      case Plain => 0
      case Llama2 => 1
      case Mistral => 2
      case Qwen2 => 3;
    assert ids[k + j] == t.id;
    if t.shot == ZeroShot {
      assert AllTemplates()[k + j] == t;
    } else {
      assert AllTemplates()[|ids| + k + j] == t;
    }
  }

  /** The first template in `ts` defined under `name`. */
  function Find(name: string, ts: seq<Template>): (r: Option<Template>)
    ensures r.Some? ==> r.value in ts && DefinedName(r.value) == name
    ensures r.None? ==> forall t :: t in ts ==> DefinedName(t) != name
  {
    if ts == [] then None
    else if DefinedName(ts[0]) == name then Some(ts[0])
    else Find(name, ts[1..])
  }

  /** `globals()[name]` restricted to the templates: None stands for the KeyError. */
  function Lookup(name: string): Option<Template> {
    Find(name, AllTemplates())
  }

  /** The key a generator composes from its dataset and model arguments. */
  function TemplateName(dataset: string, model: string, shot: Shot): string {
    dataset + "_" + model + ShotSuffix(shot)
  }

  /** Resolving the template of a run: an undefined name is a `ValueError`. */
  function Resolve(dataset: string, model: string, shot: Shot): Result<Template> {
    var name := TemplateName(dataset, model, shot);
    match Lookup(name)
    case None => Err(UnknownTemplate(name))
    case Some(t) => Ok(t)
  }

  /** The name length without the shot suffix already tells the (dataset, model) pair apart. */
  function PairLength(id: TemplateId): nat {
    |DatasetPrefix(id.dataset) + ModelInfix(id.model)|
  }

  lemma PairLengthInjective(a: TemplateId, b: TemplateId)
    requires PairLength(a) == PairLength(b)
    ensures a == b
  {
  }

  /** The character before the common "_shot_template" ending. */
  lemma ShotSuffixMark(a: Shot)
    ensures |ShotSuffix(a)| >= 15
    ensures ShotSuffix(a)[|ShotSuffix(a)| - 15] == (if a == ZeroShot then 'o' else 'w')
  {
  }

  lemma ShotSuffixInjective(a: Shot, b: Shot, p: string, q: string)
    requires p + ShotSuffix(a) == q + ShotSuffix(b)
    ensures a == b && p == q
  {
    var s := p + ShotSuffix(a);
    ShotSuffixMark(a);
    ShotSuffixMark(b);
    assert s[|s| - 15] == ShotSuffix(a)[|ShotSuffix(a)| - 15];
    assert s[|s| - 15] == (q + ShotSuffix(b))[|s| - 15] == ShotSuffix(b)[|ShotSuffix(b)| - 15];
    assert a == b;
    assert p == s[..|p|];
    assert q == s[..|q|];
  }

  /** Distinct templates have distinct names. */
  lemma DefinedNameInjective(a: Template, b: Template)
    requires DefinedName(a) == DefinedName(b)
    ensures a == b
  {
    ShotSuffixInjective(a.shot, b.shot, DatasetPrefix(a.id.dataset) + ModelInfix(a.id.model),
                        DatasetPrefix(b.id.dataset) + ModelInfix(b.id.model));
    PairLengthInjective(a.id, b.id);
  }

  /** The lookup finds a template exactly when the name is that template's defined name. */
  lemma LookupSpec(name: string, t: Template)
    ensures Lookup(name) == Some(t) <==> DefinedName(t) == name
  {
    var r := Lookup(name);
    if DefinedName(t) == name {
      AllTemplatesComplete(t);
      if r.Some? {
        DefinedNameInjective(r.value, t);
      }
    }
  }

  /** A composed few-shot key only ever reaches a few-shot template, and a
      zero-shot key a zero-shot template; the resolved template's name is the key. */
  lemma ResolveSpec(dataset: string, model: string, shot: Shot)
    ensures Resolve(dataset, model, shot).Ok? ==>
              Resolve(dataset, model, shot).value.shot == shot &&
              DefinedName(Resolve(dataset, model, shot).value) == TemplateName(dataset, model, shot)
    ensures Resolve(dataset, model, shot).Err? <==>
              forall t: Template :: DefinedName(t) != TemplateName(dataset, model, shot)
    ensures Resolve(dataset, model, shot).Err? ==>
              Resolve(dataset, model, shot).error == UnknownTemplate(TemplateName(dataset, model, shot))
  {
    var name := TemplateName(dataset, model, shot);
    match Lookup(name)
    case Some(t) =>
      LookupSpec(name, t);
      var id := t.id;
      ShotSuffixInjective(t.shot, shot, DatasetPrefix(id.dataset) + ModelInfix(id.model), dataset + "_" + model);
    case None =>
      forall t: Template ensures DefinedName(t) != name {
        LookupSpec(name, t);
      }
  }

  /** Arguments that compose a template's name, up to the shot suffix, resolve to that template. */
  lemma ResolveByName(dataset: string, model: string, t: Template)
    requires dataset + "_" + model == DatasetPrefix(t.id.dataset) + ModelInfix(t.id.model)
    ensures Resolve(dataset, model, t.shot) == Ok(t)
  {
    LookupSpec(DefinedName(t), t);
  }

  /** The name a model family goes by on the command line. */
  function ModelArgument(m: Model): string
    requires m != Plain
  {
    ModelInfix(m)[1..]
  }

  /** Every template with a model suffix is reached by its own dataset and model names. */
  lemma ResolveModelTemplate(id: TemplateId, shot: Shot)
    requires id.model != Plain
    ensures Resolve(DatasetPrefix(id.dataset), ModelArgument(id.model), shot) == Ok(Template(id, shot))
  {
    var t := Template(id, shot);
    ResolveByName(DatasetPrefix(id.dataset), ModelArgument(id.model), t);
  }

  /** A name without underscores is not `dataset + "_" + model`. */
  lemma NoUnderscoreSplit(prefix: string, dataset: string, model: string)
    requires '_' !in prefix
    ensures prefix != dataset + "_" + model
  {
    assert (dataset + "_" + model)[|dataset|] == '_';
  }

  lemma AppendCancel(p: string, q: string, x: string)
    requires p != q
    ensures p + x != q + x
  {
    if |p| == |q| {
      var k :| 0 <= k < |p| && p[k] != q[k];
      assert (p + x)[k] != (q + x)[k];
    }
  }

  /** The semeval2016 and PStance templates without a model suffix cannot be
      reached: whatever the arguments, the key has an underscore at the position
      right after the dataset argument, and neither dataset name has one. */
  lemma PlainTemplateUnreachable(d: Dataset, shot: Shot, dataset: string, model: string)
    requires d != TwitterStanceKemlm
    ensures Resolve(dataset, model, shot) != Ok(Template(TemplateId(d, Plain), shot))
  {
    var t := Template(TemplateId(d, Plain), shot);
    assert DefinedName(t) == DatasetPrefix(d) + ShotSuffix(shot);
    NoUnderscoreSplit(DatasetPrefix(d), dataset, model);
    AppendCancel(DatasetPrefix(d), dataset + "_" + model, ShotSuffix(shot));
    ResolveSpec(dataset, model, shot);
  }

  /** The twitter_stance_kemlm template without a model suffix is reachable,
      because that dataset name has underscores to split at: both
      `("twitter_stance", "kemlm")` and `("twitter", "stance_kemlm")` compose
      its name. */
  lemma TwitterPlainReachable(dataset: string, model: string, shot: Shot)
    requires dataset + "_" + model == "twitter_stance_kemlm"
    ensures Resolve(dataset, model, shot) == Ok(Template(TemplateId(TwitterStanceKemlm, Plain), shot))
  {
    ResolveByName(dataset, model, Template(TemplateId(TwitterStanceKemlm, Plain), shot));
  }

  /** The composed key is not injective: two different argument pairs reach the same template. */
  lemma KeyNotInjective(dataset1: string, model1: string, dataset2: string, model2: string, shot: Shot)
    requires dataset1 == "twitter_stance" && model1 == "kemlm_llama2"
    requires dataset2 == "twitter_stance_kemlm" && model2 == "llama2"
    ensures dataset1 != dataset2
    ensures Resolve(dataset1, model1, shot) == Resolve(dataset2, model2, shot)
                                             == Ok(Template(TemplateId(TwitterStanceKemlm, Llama2), shot))
  {
    assert |dataset1| != |dataset2|;
    var t := Template(TemplateId(TwitterStanceKemlm, Llama2), shot);
    assert dataset1 + "_" + model1 == DatasetPrefix(TwitterStanceKemlm) + ModelInfix(Llama2);
    assert dataset2 + "_" + model2 == DatasetPrefix(TwitterStanceKemlm) + ModelInfix(Llama2);
    ResolveByName(dataset1, model1, t);
    ResolveByName(dataset2, model2, t);
  }

  /** The few-shot generator picks its output sub-directory by testing the key for
      "zero_shot". */
  function PromptType(name: string): string {
    if Contains(name, "zero_shot") then "zero_shot" else "few_shot"
  }

  /** No defined few-shot name has a 'z' in it. */
  lemma FewShotNameHasNoZ(id: TemplateId)
    ensures 'z' !in DefinedName(Template(id, FewShot))
  {
    assert 'z' !in DatasetPrefix(id.dataset);
    assert 'z' !in ModelInfix(id.model);
    assert 'z' !in ShotSuffix(FewShot);
  }

  /** A key that resolved to a few-shot template never contains "zero_shot", so
      the prompts of every run go under "few_shot". */
  lemma FewShotPromptType(dataset: string, model: string)
    requires Resolve(dataset, model, FewShot).Ok?
    ensures PromptType(TemplateName(dataset, model, FewShot)) == "few_shot"
  {
    var name := TemplateName(dataset, model, FewShot);
    ResolveSpec(dataset, model, FewShot);
    FewShotNameHasNoZ(Resolve(dataset, model, FewShot).value.id);
    if Contains(name, "zero_shot") {
      ContainsChar(name, "zero_shot", 'z');
    }
  }
}
