/**
  The prompt templates. For each dataset (semeval2016, twitter_stance_kemlm,
  PStance) and each model family (none, llama2, mistral, qwen2) there is a
  zero-shot template `(tweet, target) -> prompt` and a few-shot template
  `(tweet, target, examples) -> prompt`: 24 pure string builders.

  Every template is fixed text with the target spliced into its instructions
  and question and the tweet spliced in as `Tweet: "<tweet>"`, unescaped. A
  few-shot template also renders its exemplars into a block and splices that
  block, between a fixed leader and trailer, right before the tweet line.
 */
module Prompts {
  import opened Common
  import opened Strings

  datatype Dataset = SemEval2016 | TwitterStanceKemlm | PStance

  /** The model family a template is written for; `Plain` is the template without a model suffix. */
  datatype Model = Plain | Llama2 | Mistral | Qwen2

  /** A (dataset, model) pair: it has one zero-shot and one few-shot template. */
  datatype TemplateId = TemplateId(dataset: Dataset, model: Model)

  /** One labelled example as the few-shot generator builds it from a sampled row
      (the source calls the stance field `label`);
      a field is None when the row was shorter than the header. */
  datatype Exemplar = Exemplar(tweet: Option<string>, target: Option<string>, stance: Option<string>)

  // ---------------------------------------------------------------------------
  // Framing shared by the templates
  // ---------------------------------------------------------------------------

  /** The fixed text every prompt of the pair starts with. */
  function Opener(id: TemplateId): string {
    match id.model
    case Plain =>
      if id.dataset == PStance then
        "You are an expert assistant for stance " + "detection in U.S. political tweets. "
      else
        "Below is an instruction that describes " + "a task. Write a response that " +
        "appropriately completes the request.\n\n"
    case Llama2 => "[INST] <<SYS>>"
    case Mistral => "[INST] "
    case Qwen2 => "<|im_start|>system\n"
  }

  /** The fixed text every prompt of the pair ends with. The twitter_stance_kemlm
      Mistral templates end with the "### Answer:" cue and never close `[INST]`. */
  function Closer(id: TemplateId): string {
    match id.model
    case Plain => if id.dataset == PStance then "Answer:" else "### Answer:"
    case Llama2 => "[/INST]"
    case Mistral => if id.dataset == TwitterStanceKemlm then "### Answer:" else "[/INST]"
    case Qwen2 => "<|im_end|>\n"
  }

  predicate Framed(id: TemplateId, prompt: string) {
    StartsWith(prompt, Opener(id)) && EndsWith(prompt, Closer(id))
  }

  /** How every template, and every numbered or chat example, shows a tweet. */
  function TweetLine(tweet: string): string {
    "Tweet: \"" + tweet + "\""
  }

  /** How every template names its target: verbatim between double quotes. */
  function Quoted(target: string): string {
    "\"" + target + "\""
  }

  /** A question that names the target between two fixed texts. */
  function AroundTarget(before: string, target: string, after: string): (question: string)
    ensures Contains(question, Quoted(target))
  {
    ContainsMiddle(before, Quoted(target), after);
    before + Quoted(target) + after
  }

  /** The fixed text right before a few-shot example block. */
  function Leader(id: TemplateId): string {
    if id.model == Qwen2 then "<|im_end|>\n\n"
    else if id.dataset == PStance then "Here are some examples:\n\n"
    else "Here are some examples for guidance:\n\n"
  }

  /** The fixed text between a few-shot example block and the tweet line. */
  function Trailer(id: TemplateId): string {
    if id.model == Qwen2 then "\n\n<|im_start|>user\n"
    else if id.dataset == PStance then "\n\nNow analyze the following tweet:\n\n"
    else "\n\nNow, analyze the following tweet:\n\n"
  }

  /** The shape of every template: opening, instructions, an optional example
      section, the tweet line, the question and the closing, in that order. */
  function Assemble(open: string, instructions: string, section: string, tweet: string,
                    question: string, close: string): (prompt: string)
    ensures StartsWith(prompt, open + instructions)
    ensures EndsWith(prompt, section + TweetLine(tweet) + question + close)
    ensures Contains(prompt, section + TweetLine(tweet) + question)
  {
    var head := open + instructions;
    var middle := section + TweetLine(tweet) + question;
    var prompt := open + instructions + section + TweetLine(tweet) + question + close;
    assert prompt == head + middle + close;
    Sandwich(head, middle, close);
    assert prompt == head + (middle + close);
    Concat(head, middle + close);
    prompt
  }

  /** A zero-shot prompt: the pair's opening, its instructions, the tweet line,
      its question and its closing, with no example section. The question
      names the target, so the prompt does too, right after the tweet line. */
  function ZeroShotPrompt(id: TemplateId, instructions: string, tweet: string, target: string, question: string)
    : (prompt: string)
    requires Contains(question, Quoted(target))
    ensures Framed(id, prompt)
    ensures StartsWith(prompt, Opener(id) + instructions)
    ensures Contains(prompt, TweetLine(tweet) + question)
    ensures Contains(prompt, TweetLine(tweet))
    ensures Contains(prompt, Quoted(target))
  {
    var prompt := Assemble(Opener(id), instructions, "", tweet, question, Closer(id));
    assert "" + TweetLine(tweet) + question == TweetLine(tweet) + question;
    Embedded(prompt, Opener(id), instructions, TweetLine(tweet), question, Closer(id), Quoted(target));
    prompt
  }

  /** A few-shot prompt: as a zero-shot one, with the pair's example block between
      its leader and trailer right before the tweet line. */
  function FewShotPrompt(id: TemplateId, instructions: string, examples: seq<Exemplar>, tweet: string,
                         target: string, question: string): (prompt: string)
    requires Contains(question, Quoted(target))
    ensures Framed(id, prompt)
    ensures StartsWith(prompt, Opener(id) + instructions)
    ensures Contains(prompt, Leader(id) + Block(id, examples) + Trailer(id) + TweetLine(tweet) + question)
    ensures Contains(prompt, Leader(id) + Block(id, examples) + Trailer(id) + TweetLine(tweet))
    ensures Contains(prompt, Quoted(target))
  {
    var section := Leader(id) + Block(id, examples) + Trailer(id);
    var prompt := Assemble(Opener(id), instructions, section, tweet, question, Closer(id));
    Embedded(prompt, Opener(id), instructions, section + TweetLine(tweet), question, Closer(id), Quoted(target));
    prompt
  }

  /** What an assembled prompt promises about its parts: framed by `open` and
      `close`, and holding `shown` followed by a question that names `target`. */
  lemma Embedded(prompt: string, open: string, instructions: string, shown: string, question: string,
                 close: string, quoted: string)
    requires StartsWith(prompt, open + instructions) && EndsWith(prompt, shown + question + close)
    requires Contains(prompt, shown + question) && Contains(question, quoted)
    ensures StartsWith(prompt, open) && EndsWith(prompt, close)
    ensures Contains(prompt, shown) && Contains(prompt, quoted)
  {
    assert (open + instructions)[..|open|] == open;
    assert (shown + question + close)[|shown + question|..] == close;
    ContainsPrefix(shown, question);
    ContainsTransitive(prompt, shown + question, shown);
    ContainsRight(prompt, shown, question);
    ContainsTransitive(prompt, question, quoted);
  }

  // ---------------------------------------------------------------------------
  // Example blocks
  // ---------------------------------------------------------------------------

  /** Example number `n` in the numbered rendering. */
  function NumberedEntry(n: nat, e: Exemplar): string {
    "Example " + Decimal(n) + ":\n" + TweetLine(Show(e.tweet)) + "\nTarget: \"" + Show(e.target) +
    "\"\nStance: " + Show(e.stance)
  }

  /** The numbered entries of `examples`, counting from `first`. */
  function NumberedEntries(first: nat, examples: seq<Exemplar>): seq<string> {
    seq(|examples|, i requires 0 <= i < |examples| => NumberedEntry(first + i, examples[i]))
  }

  /** The semeval2016 and twitter_stance_kemlm rendering: numbered from 1, joined by a blank line. */
  function NumberedBlock(examples: seq<Exemplar>): string {
    Join("\n\n", NumberedEntries(1, examples))
  }

  /** The PStance rendering (no model, llama2, mistral): numbered entries that
      each end in a newline, joined by a newline. */
  function PStanceBlock(examples: seq<Exemplar>): string {
    Join("\n", seq(|examples|, i requires 0 <= i < |examples| => NumberedEntry(i + 1, examples[i]) + "\n"))
  }

  /** The markup that opens a chat turn of `role`. */
  function TurnOpen(role: string): string {
    "<|im_start|>" + role + "\n"
  }

  /** The markup that closes a chat turn. */
  const TurnClose: string := "\n<|im_end|>"

  /** One chat turn in the Qwen chat markup. */
  function ChatTurn(role: string, body: string): string {
    TurnOpen(role) + body + TurnClose
  }

  /** The opening of a Qwen example question that names the target. */
  const AskedAbout: string := "What is the stance of this " + "tweet towards \""

  /** The Qwen example question that refers to a `Target:` line. */
  const AskedOfTarget: string :=
    "What is the stance of this " + "tweet towards the target? " + "Choose one: support, against, none."

  /** What a Qwen example asks after its tweet line: PStance names the target
      inside the question, the other datasets give it on a `Target:` line. */
  function ChatAsk(dataset: Dataset, target: Option<string>): string {
    if dataset == PStance then
      "\n\n" + TargetMention(dataset, target) + " Choose one: support, against."
    else
      TargetMention(dataset, target) + AskedOfTarget
  }

  /** How a Qwen example mentions its target: inside the question for PStance,
      on a `Target:` line of its own for the other datasets. */
  function TargetMention(dataset: Dataset, target: Option<string>): string {
    if dataset == PStance then AskedAbout + Show(target) + "\"?"
    else "\n\n" + TargetLine(Show(target)) + "\n\n"
  }

  /** How a Qwen example of semeval2016 or twitter_stance_kemlm shows its target. */
  function TargetLine(target: string): string {
    "Target: \"" + target + "\""
  }

  /** A Qwen example: a user turn holding the tweet line and the question,
      then an assistant turn holding the stance. */
  function ChatEntry(dataset: Dataset, e: Exemplar): string {
    (TurnOpen("user") + TweetLine(Show(e.tweet))) + (ChatAsk(dataset, e.target) + (TurnClose + "\n")) +
    ChatTurn("assistant", Show(e.stance))
  }

  lemma ChatAskMentionsTarget(dataset: Dataset, target: Option<string>)
    ensures Contains(ChatAsk(dataset, target), TargetMention(dataset, target))
  {
    var part := TargetMention(dataset, target);
    if dataset == PStance {
      ContainsMiddle("\n\n", part, " Choose one: support, against.");
    } else {
      ContainsPrefix(part, AskedOfTarget);
    }
  }

  /** A Qwen example opens a user turn with the tweet line, carries no number,
      ends with an assistant turn whose body is the stance alone, and mentions
      its target in between. */
  lemma ChatEntryShape(dataset: Dataset, e: Exemplar)
    ensures StartsWith(ChatEntry(dataset, e), TurnOpen("user") + TweetLine(Show(e.tweet)))
    ensures EndsWith(ChatEntry(dataset, e), ChatTurn("assistant", Show(e.stance)))
    ensures Contains(ChatEntry(dataset, e), TargetMention(dataset, e.target))
  {
    var opening := TurnOpen("user") + TweetLine(Show(e.tweet));
    var ask := ChatAsk(dataset, e.target);
    var middle := ask + (TurnClose + "\n");
    var answer := ChatTurn("assistant", Show(e.stance));
    Sandwich(opening, middle, answer);
    ChatAskMentionsTarget(dataset, e.target);
    ContainsPrefix(ask, TurnClose + "\n");
    ContainsTransitive(middle, ask, TargetMention(dataset, e.target));
    ContainsWithin(opening, middle, answer, TargetMention(dataset, e.target));
  }

  /** The Qwen rendering: unnumbered chat examples joined by a blank line. */
  function ChatBlock(dataset: Dataset, examples: seq<Exemplar>): string {
    Join("\n\n", ChatEntries(dataset, examples))
  }

  /** The chat entries of `examples`, in order. */
  function ChatEntries(dataset: Dataset, examples: seq<Exemplar>): seq<string> {
    seq(|examples|, i requires 0 <= i < |examples| => ChatEntry(dataset, examples[i]))
  }

  /** The example block of a few-shot template, in its pair's rendering. */
  function Block(id: TemplateId, examples: seq<Exemplar>): string {
    if id.model == Qwen2 then ChatBlock(id.dataset, examples)
    else if id.dataset == PStance then PStanceBlock(examples)
    else NumberedBlock(examples)
  }

  /** No examples, no block: only the leader and trailer remain. */
  lemma EmptyBlock(id: TemplateId)
    ensures Block(id, []) == ""
  {
  }

  /** Numbering follows the input order: the examples after the first `|a|` are
      numbered from `|a| + 1`, and the block of `a + b` is the block of `a`, a
      blank line, then the entries of `b`. */
  lemma NumberedBlockAppend(a: seq<Exemplar>, b: seq<Exemplar>)
    requires |a| > 0 && |b| > 0
    ensures NumberedBlock(a + b) == NumberedBlock(a) + "\n\n" + Join("\n\n", NumberedEntries(|a| + 1, b))
  {
    assert NumberedEntries(1, a + b) == NumberedEntries(1, a) + NumberedEntries(|a| + 1, b);
    JoinAppend("\n\n", NumberedEntries(1, a), NumberedEntries(|a| + 1, b));
  }

  /** Adding an example at the end adds `"\n\n"` and its entry, numbered `|a| + 1`. */
  lemma NumberedBlockSnoc(a: seq<Exemplar>, e: Exemplar)
    requires |a| > 0
    ensures NumberedBlock(a + [e]) == NumberedBlock(a) + "\n\n" + NumberedEntry(|a| + 1, e)
  {
    NumberedBlockAppend(a, [e]);
    assert NumberedEntries(|a| + 1, [e]) == [NumberedEntry(|a| + 1, e)];
  }

  /** Chat examples carry no number, so the block of `a + b` is the block of `a`,
      a blank line, and the block of `b`. */
  lemma ChatBlockAppend(dataset: Dataset, a: seq<Exemplar>, b: seq<Exemplar>)
    requires |a| > 0 && |b| > 0
    ensures ChatBlock(dataset, a + b) == ChatBlock(dataset, a) + "\n\n" + ChatBlock(dataset, b)
  {
    ChatEntriesAppend(dataset, a, b);
    JoinAppend("\n\n", ChatEntries(dataset, a), ChatEntries(dataset, b));
  }

  /** The chat entries of `a + b` are those of `a` followed by those of `b`. */
  lemma ChatEntriesAppend(dataset: Dataset, a: seq<Exemplar>, b: seq<Exemplar>)
    ensures ChatEntries(dataset, a + b) == ChatEntries(dataset, a) + ChatEntries(dataset, b)
  {
    var entries := ChatEntries(dataset, a + b);
    var split := ChatEntries(dataset, a) + ChatEntries(dataset, b);
    forall i | 0 <= i < |entries|
      ensures entries[i] == split[i]
    {
      if i < |a| {
        assert (a + b)[i] == a[i];
      } else {
        assert (a + b)[i] == b[i - |a|];
      }
    }
  }

  /** Entries that each end in a newline, joined by a newline, read as the same
      entries joined by a blank line followed by one newline. */
  lemma {:induction false} JoinTerminated(entries: seq<string>)
    requires |entries| > 0
    ensures Join("\n", seq(|entries|, i requires 0 <= i < |entries| => entries[i] + "\n")) ==
            Join("\n\n", entries) + "\n"
    decreases |entries|
  {
    var terminated := seq(|entries|, i requires 0 <= i < |entries| => entries[i] + "\n");
    if |entries| > 1 {
      var rest := entries[1..];
      assert terminated[1..] == seq(|rest|, i requires 0 <= i < |rest| => rest[i] + "\n");
      JoinTerminated(rest);
    }
  }

  /** The PStance block is the numbered block plus one trailing newline, so its
      entries are also separated by a blank line. */
  lemma PStanceBlockIsNumberedBlock(examples: seq<Exemplar>)
    ensures PStanceBlock(examples) == if examples == [] then "" else NumberedBlock(examples) + "\n"
  {
    if examples != [] {
      var entries := NumberedEntries(1, examples);
      assert seq(|examples|, i requires 0 <= i < |examples| => NumberedEntry(i + 1, examples[i]) + "\n") ==
             seq(|entries|, i requires 0 <= i < |entries| => entries[i] + "\n");
      JoinTerminated(entries);
    }
  }

  // ---------------------------------------------------------------------------
  // Template text: instructions and questions, one set per (dataset, model) pair
  // ---------------------------------------------------------------------------

  function SemEval2016Instructions(target: string): string {
    "### Instruction:\n" +
    "You are an expert " + "assistant " + "specializing in " + "stance detection. " +
    "Your task is to " + "determine the " + "stance expressed in " + "the following tweet " +
    "towards the target: " + Quoted(target) + ".\n\n" +
    "Stance detection " + "involves " + "identifying whether " + "the tweet expresses " +
    "one of the " + "following stances:\n" +
    "- **support**: The " + "tweet shows a " + "positive or " + "supportive attitude " +
    "towards the target, " + "either explicitly " + "or implicitly.\n" +
    "- **against**: The " + "tweet expresses " + "opposition or " + "criticism towards " +
    "the target, either " + "explicitly or " + "implicitly.\n" +
    "- **none**: The " + "tweet is neutral, " + "unrelated, or does " + "not express any " +
    "stance towards the " + "target.\n\n" +
    "To determine the " + "stance, consider " + "the following " + "factors:\n" +
    "- Explicit " + "statements or " + "opinions in the " + "text.\n" +
    "- Subtext, cultural " + "or regional " + "references.\n" +
    "- Implicit meanings " + "or attitudes " + "suggested by the " + "content.\n\n"
  }

  /** The closing question of the plain SemEval-2016 and plain Twitter
      templates, which ask it word for word alike. */
  function SemEval2016Question(target: string): (question: string)
    ensures Contains(question, Quoted(target))
  {
    AroundTarget("\n\n" +
      "### Question:\n" +
      "What is the stance " + "of this tweet " + "towards the target ",
      target,
      "?\n" +
      "Choose one of the " + "following options: " + "support, against, " + "none.\n\n")
  }

  function SemEval2016Llama2Instructions(target: string): string {
    "\n" +
    "You are an expert " + "assistant for " + "stance detection. " + "Your task is to " +
    "determine the " + "stance expressed in " + "the following tweet " + "towards the target: " +
    Quoted(target) + ".\n\n" +
    "Stance detection " + "involves " + "identifying whether " + "the tweet expresses " +
    "one of the " + "following stances:\n" +
    "- **support**: The " + "tweet shows a " + "positive or " + "supportive attitude " +
    "towards the target, " + "either explicitly " + "or implicitly.\n" +
    "- **against**: The " + "tweet expresses " + "opposition or " + "criticism towards " +
    "the target, either " + "explicitly or " + "implicitly.\n" +
    "- **none**: The " + "tweet is neutral, " + "unrelated, or does " + "not express any " +
    "stance towards the " + "target.\n\n" +
    "To make your " + "assessment, " + "consider the " + "following factors:\n" +
    "- Explicit " + "statements or " + "opinions in the " + "text.\n" +
    "- Subtext, cultural " + "or regional " + "references.\n" +
    "- Implicit meanings " + "or attitudes " + "suggested by the " + "content.\n\n"
  }

  /** The closing question of the SemEval-2016 Llama 2 and Mistral templates,
      which ask it word for word alike. */
  function SemEval2016Llama2Question(target: string): (question: string)
    ensures Contains(question, Quoted(target))
  {
    AroundTarget("\n\n" +
      "What is the stance " + "of this tweet " + "towards ",
      target,
      "? Choose one: " + "support, against, " + "none.\n")
  }

  function SemEval2016MistralInstructions(target: string): string {
    "You are an expert " + "assistant " + "specializing in " + "stance detection. " +
    "Your task is to " + "determine the " + "stance expressed in " + "the following tweet " +
    "towards the target: " + Quoted(target) + ".\n\n" +
    "Stance detection " + "involves " + "identifying whether " + "the tweet expresses " +
    "one of the " + "following " + "attitudes:\n" +
    "- **support**: The " + "tweet shows a " + "positive or " + "supportive attitude " +
    "towards the target, " + "explicitly or " + "implicitly.\n" +
    "- **against**: The " + "tweet expresses " + "opposition or " + "criticism towards " +
    "the target, " + "explicitly or " + "implicitly.\n" +
    "- **none**: The " + "tweet is neutral, " + "unrelated, or does " + "not express any " +
    "stance towards the " + "target.\n\n" +
    "Analyze the tweet " + "carefully, " + "considering the " + "following:\n" +
    "- Explicit " + "statements in the " + "text.\n" +
    "- Subtext, cultural " + "or regional " + "references.\n" +
    "- Implicit meanings " + "that may not be " + "directly stated but " + "suggest a stance.\n\n"
  }


  function SemEval2016Qwen2ZeroShotInstructions(target: string): string {
    "You are an expert " + "assistant " + "specializing in " + "stance detection. " +
    "Your task is to " + "determine the " + "stance expressed in " + "a given tweet " +
    "towards a specified " + "target.\n\n" +
    "Stance detection " + "involves " + "identifying whether " + "the tweet expresses " +
    "one of the " + "following stances:\n" +
    "- **support**: The " + "tweet shows a " + "positive or " + "supportive attitude " +
    "towards the target, " + "either explicitly " + "or implicitly.\n" +
    "- **against**: The " + "tweet expresses " + "opposition or " + "criticism towards " +
    "the target, either " + "explicitly or " + "implicitly.\n" +
    "- **none**: The " + "tweet is neutral, " + "unrelated, or does " + "not express any " +
    "stance towards the " + "target.\n\n" +
    "To determine the " + "stance, consider " + "the following " + "factors:\n" +
    "- Explicit " + "statements or " + "opinions in the " + "text.\n" +
    "- Subtext, cultural " + "or regional " + "references.\n" +
    "- Implicit meanings " + "or attitudes " + "suggested by the " + "content.\n\n" +
    "Analyze the tweet " + "carefully and " + "classify its stance " + "as one of the above " +
    "options.\n" +
    "<|im_end|>\n" +
    "<|im_start|>user\n"
  }

  function SemEval2016Qwen2FewShotInstructions(target: string): string {
    "You are an expert " + "assistant " + "specializing in " + "stance detection. " +
    "Your task is to " + "determine the " + "stance expressed in " + "a given tweet " +
    "towards a specified " + "target: " + Quoted(target) + ".\n\n" +
    "Stance detection " + "involves " + "identifying whether " + "the tweet expresses " +
    "one of the " + "following stances:\n" +
    "- **support**: The " + "tweet shows a " + "positive or " + "supportive attitude " +
    "towards the target, " + "either explicitly " + "or implicitly.\n" +
    "- **against**: The " + "tweet expresses " + "opposition or " + "criticism towards " +
    "the target, either " + "explicitly or " + "implicitly.\n" +
    "- **none**: The " + "tweet is neutral, " + "unrelated, or does " + "not express any " +
    "stance towards the " + "target.\n\n" +
    "To determine the " + "stance, consider " + "the following " + "factors:\n" +
    "- Explicit " + "statements or " + "opinions in the " + "text.\n" +
    "- Subtext, cultural " + "or regional " + "references.\n" +
    "- Implicit meanings " + "or attitudes " + "suggested by the " + "content.\n\n" +
    "Analyze the tweet " + "carefully and " + "classify its stance " + "as one of the above " +
    "options.\n"
  }

  /** The closing question of the SemEval-2016 and Twitter Qwen 2 templates,
      which ask it word for word alike. */
  function SemEval2016Qwen2Question(target: string): (question: string)
    ensures Contains(question, Quoted(target))
  {
    AroundTarget("\n\n" +
      "Target: ",
      target,
      "\n\n" +
      "What is the stance " + "of this tweet " + "towards the target? " + "Choose one: " +
      "support, against, " + "none.\n")
  }

  function TwitterStanceKemlmInstructions(target: string): string {
    "### Instruction:\n" +
    "You are a helpful " + "and respectful " + "assistant " + "specializing in " +
    "stance detection. " + "Your task is to " + "analyze the " + "following tweet and " +
    "determine its " + "stance towards the " + "given target: " + Quoted(target) + ".\n\n" +
    "Stance detection is " + "the process of " + "identifying whether " + "the author of a " +
    "tweet is:\n" +
    "- **support**: " + "Expressing a " + "positive or " + "supportive attitude " +
    "towards the target, " + "explicitly or " + "implicitly.\n" +
    "- **against**: " + "Expressing " + "opposition or " + "criticism towards " + "the target, " +
    "explicitly or " + "implicitly.\n" +
    "- **none**: " + "Neutral, unrelated, " + "or expressing no " + "clear stance " +
    "towards the " + "target.\n\n" +
    "Consider both " + "explicit statements " + "and implicit " + "factors such as " +
    "subtext, cultural " + "references, and " + "regional nuances.\n\n"
  }


  function TwitterStanceKemlmLlama2Instructions(target: string): string {
    "\n" +
    "You are an expert " + "assistant " + "specializing in " + "stance detection " +
    "for a given target. " + "Your task is to " + "determine the " + "stance of the " +
    "following tweet " + "towards the target: " + Quoted(target) + ".\n\n" +
    "Stance detection " + "involves " + "identifying whether " + "the tweet expresses " +
    "one of the " + "following " + "attitudes:\n" +
    "- **support**: The " + "tweet shows a " + "positive or " + "supportive attitude " +
    "towards the target, " + "explicitly or " + "implicitly.\n" +
    "- **against**: The " + "tweet expresses " + "opposition or " + "criticism towards " +
    "the target, " + "explicitly or " + "implicitly.\n" +
    "- **none**: The " + "tweet is neutral, " + "unrelated, or does " + "not express any " +
    "stance towards the " + "target.\n\n" +
    "Consider the " + "following factors " + "when analyzing the " + "tweet:\n" +
    "- Explicit " + "statements or " + "opinions in the " + "text.\n" +
    "- Subtext, cultural " + "or regional " + "references.\n" +
    "- Implicit meanings " + "that suggest a " + "stance, even if not " + "directly stated.\n\n"
  }

  function TwitterStanceKemlmLlama2Question(target: string): (question: string)
    ensures Contains(question, Quoted(target))
  {
    AroundTarget("\n\n" +
      "Stance towards ",
      target,
      ": ")
  }

  function TwitterStanceKemlmMistralZeroShotInstructions(target: string): string {
    "You are a highly " + "capable assistant " + "specializing in " + "detecting the " +
    "stance expressed in " + "tweets about a " + "specific target. " + "The target in " +
    "question is: " + Quoted(target) + ".\n\n" +
    "Stance detection is " + "the task of " + "determining whether " + "a tweet expresses " +
    "one of the " + "following attitudes " + "toward the target:\n" +
    "- **support**: The " + "tweet expresses a " + "positive or " + "supportive attitude " +
    "toward the target, " + "either explicitly " + "or implicitly.\n" +
    "- **against**: The " + "tweet expresses " + "opposition or " + "criticism toward " +
    "the target, either " + "explicitly or " + "implicitly.\n" +
    "- **none**: The " + "tweet is neutral, " + "unrelated, or does " + "not take any clear " +
    "stance toward the " + "target.\n\n" +
    "Your task is to " + "carefully analyze " + "the tweet and " + "classify its stance " +
    "toward the target. " + "This may require " + "understanding:\n" +
    "- Explicit content " + "within the text " + "(e.g., direct " + "statements or " +
    "opinions).\n" +
    "- Subtext, cultural " + "references, or " + "regional nuances.\n" +
    "- Implicit meanings " + "that may not be " + "directly stated but " + "suggest a stance.\n\n" +
    "Here is the tweet " + "for analysis:\n\n"
  }

  function TwitterStanceKemlmMistralFewShotInstructions(target: string): string {
    "You are a highly " + "capable assistant " + "specializing in " + "detecting the " +
    "stance expressed in " + "tweets about a " + "specific target. " + "The target in " +
    "question is: " + Quoted(target) + ".\n\n" +
    "Stance detection is " + "the task of " + "determining whether " + "a tweet expresses " +
    "one of the " + "following attitudes " + "toward the target:\n" +
    "- **support**: The " + "tweet expresses a " + "positive or " + "supportive attitude " +
    "toward the target, " + "either explicitly " + "or implicitly.\n" +
    "- **against**: The " + "tweet expresses " + "opposition or " + "criticism toward " +
    "the target, either " + "explicitly or " + "implicitly.\n" +
    "- **none**: The " + "tweet is neutral, " + "unrelated, or does " + "not take any clear " +
    "stance toward the " + "target.\n\n" +
    "Your task is to " + "analyze the tweet " + "carefully and " + "classify its stance " +
    "toward the target. " + "This may require " + "understanding:\n" +
    "- Explicit content " + "within the text " + "(e.g., direct " + "statements or " +
    "opinions).\n" +
    "- Subtext, cultural " + "references, or " + "regional nuances.\n" +
    "- Implicit meanings " + "that may not be " + "directly stated but " + "suggest a stance.\n\n"
  }

  function TwitterStanceKemlmMistralQuestion(target: string): (question: string)
    ensures Contains(question, Quoted(target))
  {
    AroundTarget("\n\n" +
      "### Question:\n" +
      "What is the stance " + "of this tweet " + "toward the target ",
      target,
      "?\n" +
      "Choose one of the " + "following options: " + "support, against, " + "none.\n\n")
  }

  function TwitterStanceKemlmQwen2Instructions(target: string): string {
    "You are an expert " + "assistant " + "specializing in " + "stance detection. " +
    "Your task is to " + "analyze the given " + "tweet and determine " + "its stance towards " +
    "the specified " + "target: " + Quoted(target) + ".\n\n" +
    "Stance detection " + "involves " + "identifying whether " + "the tweet expresses " +
    "one of the " + "following stances:\n" +
    "- **support**: The " + "tweet shows a " + "positive or " + "supportive attitude " +
    "towards the target, " + "explicitly or " + "implicitly.\n" +
    "- **against**: The " + "tweet expresses " + "opposition or " + "criticism towards " +
    "the target, " + "explicitly or " + "implicitly.\n" +
    "- **none**: The " + "tweet is neutral, " + "unrelated, or does " + "not express any " +
    "stance towards the " + "target.\n\n" +
    "Consider the " + "following factors " + "in your analysis:\n" +
    "- Explicit " + "statements or " + "opinions in the " + "text.\n" +
    "- Subtext, cultural " + "or regional " + "references.\n" +
    "- Implicit meanings " + "or attitudes " + "suggested by the " + "content.\n"
  }


  function PStanceInstructions(target: string): string {
    "Your task is to " + "determine the " + "stance expressed in " + "the given tweet " +
    "towards the target: " + Quoted(target) + ".\n\n" +
    "Stance detection " + "identifies whether " + "the tweet supports " + "or opposes the " +
    "target. Analyze the " + "tweet carefully, " + "considering " + "explicit " + "statements, " +
    "subtext, cultural " + "or regional " + "references, and " + "implicit meanings.\n\n" +
    "Possible stances:\n" +
    "- support: The " + "tweet shows a " + "positive or " + "supportive attitude " +
    "towards the target.\n" +
    "- against: The " + "tweet opposes or " + "criticizes the " + "target.\n\n"
  }

  function PStanceQuestion(target: string): (question: string)
    ensures Contains(question, Quoted(target))
  {
    AroundTarget("\n\n" +
      "What is the stance " + "of this tweet " + "towards ",
      target,
      "? Choose one: " + "support, against.\n\n")
  }

  function PStanceLlama2Instructions(target: string): string {
    " You are an " + "assistant " + "specializing in " + "stance detection " + "for political " +
    "tweets about U.S. " + "presidential " + "candidates. Your " + "task is to analyze " +
    "the given tweet and " + "determine its " + "stance towards the " + "target: " + Quoted(target) + ".\n\n" +
    "Stance detection " + "involves " + "identifying whether " + "the author of a " +
    "tweet is in favor " + "of or against a " + "target. This may " + "include " +
    "understanding " + "subtext, cultural " + "or regional " + "references, and " +
    "implicit meanings.\n\n" +
    "Possible stances:\n" +
    "- support: The " + "tweet shows a " + "positive or " + "supportive attitude " +
    "towards the target, " + "explicitly or " + "implicitly.\n" +
    "- against: The " + "tweet criticizes or " + "opposes the target, " + "explicitly or " +
    "implicitly.\n" +
    "<</SYS>>\n\n"
  }

  /** The closing question of the P-Stance Llama 2 and Mistral templates,
      which ask it word for word alike. */
  function PStanceLlama2Question(target: string): (question: string)
    ensures Contains(question, Quoted(target))
  {
    AroundTarget("\n" +
      "Stance towards ",
      target,
      ": ")
  }

  function PStanceMistralInstructions(target: string): string {
    "You are an " + "assistant " + "specializing in " + "stance detection " + "for political " +
    "tweets about U.S. " + "presidential " + "candidates. Your " + "task is to " +
    "determine whether a " + "tweet is 'support' " + "or 'against' the " + "target: " + Quoted(target) + ".\n\n" +
    "Stance detection " + "involves " + "understanding both " + "explicit statements " +
    "and implicit " + "subtext, including " + "cultural or " + "regional " + "references. The " +
    "possible stances " + "are:\n" +
    "- support: The " + "tweet shows a " + "positive or " + "supportive attitude " +
    "toward the target.\n" +
    "- against: The " + "tweet opposes or " + "criticizes the " + "target.\n\n"
  }


  function PStanceQwen2Instructions(target: string): string {
    "You are an expert " + "assistant for " + "stance detection in " + "U.S. political " +
    "tweets. Your task " + "is to determine the " + "stance expressed in " + "the given tweet " +
    "towards the target: " + Quoted(target) + ".\n\n" +
    "Stance detection " + "involves " + "identifying whether " + "the tweet supports " +
    "or opposes the " + "target. Analyze the " + "tweet carefully, " + "considering " +
    "explicit " + "statements, " + "subtext, cultural " + "or regional " + "references, and " +
    "implicit meanings.\n\n" +
    "Possible stances:\n" +
    "- **support**: The " + "tweet shows a " + "positive or " + "supportive attitude " +
    "towards the target.\n" +
    "- **against**: The " + "tweet opposes or " + "criticizes the " + "target.\n"
  }

  function PStanceQwen2Question(target: string): (question: string)
    ensures Contains(question, Quoted(target))
  {
    AroundTarget("\n\n" +
      "What is the stance " + "of this tweet " + "towards ",
      target,
      "? Choose one: " + "support, against.\n")
  }

  // ---------------------------------------------------------------------------
  // The 24 templates
  // ---------------------------------------------------------------------------

  /** `semeval2016_zero_shot_template`. */
  function SemEval2016ZeroShot(tweet: string, target: string): (prompt: string)
    ensures Framed(TemplateId(SemEval2016, Plain), prompt)
    ensures Contains(prompt, TweetLine(tweet))
    ensures Contains(prompt, Quoted(target))
  {
    ZeroShotPrompt(TemplateId(SemEval2016, Plain),
      SemEval2016Instructions(target),
      tweet, target, SemEval2016Question(target))
  }

  /** `semeval2016_few_shot_template`. */
  function SemEval2016FewShot(tweet: string, target: string, examples: seq<Exemplar>): (prompt: string)
    ensures Framed(TemplateId(SemEval2016, Plain), prompt)
    ensures Contains(prompt, Leader(TemplateId(SemEval2016, Plain)) + Block(TemplateId(SemEval2016, Plain), examples) +
                             Trailer(TemplateId(SemEval2016, Plain)) + TweetLine(tweet))
    ensures Contains(prompt, Quoted(target))
  {
    FewShotPrompt(TemplateId(SemEval2016, Plain),
      SemEval2016Instructions(target),
      examples, tweet, target, SemEval2016Question(target))
  }

  /** `semeval2016_llama2_zero_shot_template`. */
  function SemEval2016Llama2ZeroShot(tweet: string, target: string): (prompt: string)
    ensures Framed(TemplateId(SemEval2016, Llama2), prompt)
    ensures Contains(prompt, TweetLine(tweet))
    ensures Contains(prompt, Quoted(target))
  {
    ZeroShotPrompt(TemplateId(SemEval2016, Llama2),
      SemEval2016Llama2Instructions(target) +
      "Please analyze the " + "tweet carefully and " + "provide a " + "classification from " +
      "the possible " + "stances.\n" +
      "<</SYS>>\n\n",
      tweet, target, SemEval2016Llama2Question(target))
  }

  /** `semeval2016_llama2_few_shot_template`. */
  function SemEval2016Llama2FewShot(tweet: string, target: string, examples: seq<Exemplar>): (prompt: string)
    ensures Framed(TemplateId(SemEval2016, Llama2), prompt)
    ensures Contains(prompt, Leader(TemplateId(SemEval2016, Llama2)) + Block(TemplateId(SemEval2016, Llama2), examples) +
                             Trailer(TemplateId(SemEval2016, Llama2)) + TweetLine(tweet))
    ensures Contains(prompt, Quoted(target))
  {
    FewShotPrompt(TemplateId(SemEval2016, Llama2),
      SemEval2016Llama2Instructions(target),
      examples, tweet, target, SemEval2016Llama2Question(target))
  }

  /** `semeval2016_mistral_zero_shot_template`. */
  function SemEval2016MistralZeroShot(tweet: string, target: string): (prompt: string)
    ensures Framed(TemplateId(SemEval2016, Mistral), prompt)
    ensures Contains(prompt, TweetLine(tweet))
    ensures Contains(prompt, Quoted(target))
  {
    ZeroShotPrompt(TemplateId(SemEval2016, Mistral),
      SemEval2016MistralInstructions(target),
      tweet, target, SemEval2016Llama2Question(target))
  }

  /** `semeval2016_mistral_few_shot_template`. */
  function SemEval2016MistralFewShot(tweet: string, target: string, examples: seq<Exemplar>): (prompt: string)
    ensures Framed(TemplateId(SemEval2016, Mistral), prompt)
    ensures Contains(prompt, Leader(TemplateId(SemEval2016, Mistral)) + Block(TemplateId(SemEval2016, Mistral), examples) +
                             Trailer(TemplateId(SemEval2016, Mistral)) + TweetLine(tweet))
    ensures Contains(prompt, Quoted(target))
  {
    FewShotPrompt(TemplateId(SemEval2016, Mistral),
      SemEval2016MistralInstructions(target),
      examples, tweet, target, SemEval2016Llama2Question(target))
  }

  /** `semeval2016_qwen2_zero_shot_template`. */
  function SemEval2016Qwen2ZeroShot(tweet: string, target: string): (prompt: string)
    ensures Framed(TemplateId(SemEval2016, Qwen2), prompt)
    ensures Contains(prompt, TweetLine(tweet))
    ensures Contains(prompt, Quoted(target))
  {
    ZeroShotPrompt(TemplateId(SemEval2016, Qwen2),
      SemEval2016Qwen2ZeroShotInstructions(target),
      tweet, target, SemEval2016Qwen2Question(target))
  }

  /** `semeval2016_qwen2_few_shot_template`. */
  function SemEval2016Qwen2FewShot(tweet: string, target: string, examples: seq<Exemplar>): (prompt: string)
    ensures Framed(TemplateId(SemEval2016, Qwen2), prompt)
    ensures Contains(prompt, Leader(TemplateId(SemEval2016, Qwen2)) + Block(TemplateId(SemEval2016, Qwen2), examples) +
                             Trailer(TemplateId(SemEval2016, Qwen2)) + TweetLine(tweet))
    ensures Contains(prompt, Quoted(target))
  {
    FewShotPrompt(TemplateId(SemEval2016, Qwen2),
      SemEval2016Qwen2FewShotInstructions(target),
      examples, tweet, target, SemEval2016Qwen2Question(target))
  }

  /** `twitter_stance_kemlm_zero_shot_template`. */
  function TwitterStanceKemlmZeroShot(tweet: string, target: string): (prompt: string)
    ensures Framed(TemplateId(TwitterStanceKemlm, Plain), prompt)
    ensures Contains(prompt, TweetLine(tweet))
    ensures Contains(prompt, Quoted(target))
  {
    ZeroShotPrompt(TemplateId(TwitterStanceKemlm, Plain),
      TwitterStanceKemlmInstructions(target),
      tweet, target, SemEval2016Question(target))
  }

  /** `twitter_stance_kemlm_few_shot_template`. */
  function TwitterStanceKemlmFewShot(tweet: string, target: string, examples: seq<Exemplar>): (prompt: string)
    ensures Framed(TemplateId(TwitterStanceKemlm, Plain), prompt)
    ensures Contains(prompt, Leader(TemplateId(TwitterStanceKemlm, Plain)) + Block(TemplateId(TwitterStanceKemlm, Plain), examples) +
                             Trailer(TemplateId(TwitterStanceKemlm, Plain)) + TweetLine(tweet))
    ensures Contains(prompt, Quoted(target))
  {
    FewShotPrompt(TemplateId(TwitterStanceKemlm, Plain),
      TwitterStanceKemlmInstructions(target),
      examples, tweet, target, SemEval2016Question(target))
  }

  /** `twitter_stance_kemlm_llama2_zero_shot_template`. */
  function TwitterStanceKemlmLlama2ZeroShot(tweet: string, target: string): (prompt: string)
    ensures Framed(TemplateId(TwitterStanceKemlm, Llama2), prompt)
    ensures Contains(prompt, TweetLine(tweet))
    ensures Contains(prompt, Quoted(target))
  {
    ZeroShotPrompt(TemplateId(TwitterStanceKemlm, Llama2),
      TwitterStanceKemlmLlama2Instructions(target) +
      "Please analyze the " + "tweet thoroughly " + "and provide your " + "answer.\n" +
      "<</SYS>>\n\n",
      tweet, target, TwitterStanceKemlmLlama2Question(target))
  }

  /** `twitter_stance_kemlm_llama2_few_shot_template`. */
  function TwitterStanceKemlmLlama2FewShot(tweet: string, target: string, examples: seq<Exemplar>): (prompt: string)
    ensures Framed(TemplateId(TwitterStanceKemlm, Llama2), prompt)
    ensures Contains(prompt, Leader(TemplateId(TwitterStanceKemlm, Llama2)) + Block(TemplateId(TwitterStanceKemlm, Llama2), examples) +
                             Trailer(TemplateId(TwitterStanceKemlm, Llama2)) + TweetLine(tweet))
    ensures Contains(prompt, Quoted(target))
  {
    FewShotPrompt(TemplateId(TwitterStanceKemlm, Llama2),
      TwitterStanceKemlmLlama2Instructions(target),
      examples, tweet, target, TwitterStanceKemlmLlama2Question(target))
  }

  /** `twitter_stance_kemlm_mistral_zero_shot_template`. */
  function TwitterStanceKemlmMistralZeroShot(tweet: string, target: string): (prompt: string)
    ensures Framed(TemplateId(TwitterStanceKemlm, Mistral), prompt)
    ensures Contains(prompt, TweetLine(tweet))
    ensures Contains(prompt, Quoted(target))
  {
    ZeroShotPrompt(TemplateId(TwitterStanceKemlm, Mistral),
      TwitterStanceKemlmMistralZeroShotInstructions(target),
      tweet, target, TwitterStanceKemlmMistralQuestion(target))
  }

  /** `twitter_stance_kemlm_mistral_few_shot_template`. */
  function TwitterStanceKemlmMistralFewShot(tweet: string, target: string, examples: seq<Exemplar>): (prompt: string)
    ensures Framed(TemplateId(TwitterStanceKemlm, Mistral), prompt)
    ensures Contains(prompt, Leader(TemplateId(TwitterStanceKemlm, Mistral)) + Block(TemplateId(TwitterStanceKemlm, Mistral), examples) +
                             Trailer(TemplateId(TwitterStanceKemlm, Mistral)) + TweetLine(tweet))
    ensures Contains(prompt, Quoted(target))
  {
    FewShotPrompt(TemplateId(TwitterStanceKemlm, Mistral),
      TwitterStanceKemlmMistralFewShotInstructions(target),
      examples, tweet, target, TwitterStanceKemlmMistralQuestion(target))
  }

  /** `twitter_stance_kemlm_qwen2_zero_shot_template`. */
  function TwitterStanceKemlmQwen2ZeroShot(tweet: string, target: string): (prompt: string)
    ensures Framed(TemplateId(TwitterStanceKemlm, Qwen2), prompt)
    ensures Contains(prompt, TweetLine(tweet))
    ensures Contains(prompt, Quoted(target))
  {
    ZeroShotPrompt(TemplateId(TwitterStanceKemlm, Qwen2),
      TwitterStanceKemlmQwen2Instructions(target) +
      "<|im_end|>\n" +
      "<|im_start|>user\n",
      tweet, target, SemEval2016Qwen2Question(target))
  }

  /** `twitter_stance_kemlm_qwen2_few_shot_template`. */
  function TwitterStanceKemlmQwen2FewShot(tweet: string, target: string, examples: seq<Exemplar>): (prompt: string)
    ensures Framed(TemplateId(TwitterStanceKemlm, Qwen2), prompt)
    ensures Contains(prompt, Leader(TemplateId(TwitterStanceKemlm, Qwen2)) + Block(TemplateId(TwitterStanceKemlm, Qwen2), examples) +
                             Trailer(TemplateId(TwitterStanceKemlm, Qwen2)) + TweetLine(tweet))
    ensures Contains(prompt, Quoted(target))
  {
    FewShotPrompt(TemplateId(TwitterStanceKemlm, Qwen2),
      TwitterStanceKemlmQwen2Instructions(target),
      examples, tweet, target, SemEval2016Qwen2Question(target))
  }

  /** `PStance_zero_shot_template`. */
  function PStanceZeroShot(tweet: string, target: string): (prompt: string)
    ensures Framed(TemplateId(PStance, Plain), prompt)
    ensures Contains(prompt, TweetLine(tweet))
    ensures Contains(prompt, Quoted(target))
  {
    ZeroShotPrompt(TemplateId(PStance, Plain),
      PStanceInstructions(target),
      tweet, target, PStanceQuestion(target))
  }

  /** `PStance_few_shot_template`. */
  function PStanceFewShot(tweet: string, target: string, examples: seq<Exemplar>): (prompt: string)
    ensures Framed(TemplateId(PStance, Plain), prompt)
    ensures Contains(prompt, Leader(TemplateId(PStance, Plain)) + Block(TemplateId(PStance, Plain), examples) +
                             Trailer(TemplateId(PStance, Plain)) + TweetLine(tweet))
    ensures Contains(prompt, Quoted(target))
  {
    FewShotPrompt(TemplateId(PStance, Plain),
      PStanceInstructions(target),
      examples, tweet, target, PStanceQuestion(target))
  }

  /** `PStance_llama2_zero_shot_template`. */
  function PStanceLlama2ZeroShot(tweet: string, target: string): (prompt: string)
    ensures Framed(TemplateId(PStance, Llama2), prompt)
    ensures Contains(prompt, TweetLine(tweet))
    ensures Contains(prompt, Quoted(target))
  {
    ZeroShotPrompt(TemplateId(PStance, Llama2),
      PStanceLlama2Instructions(target),
      tweet, target, PStanceLlama2Question(target))
  }

  /** `PStance_llama2_few_shot_template`. */
  function PStanceLlama2FewShot(tweet: string, target: string, examples: seq<Exemplar>): (prompt: string)
    ensures Framed(TemplateId(PStance, Llama2), prompt)
    ensures Contains(prompt, Leader(TemplateId(PStance, Llama2)) + Block(TemplateId(PStance, Llama2), examples) +
                             Trailer(TemplateId(PStance, Llama2)) + TweetLine(tweet))
    ensures Contains(prompt, Quoted(target))
  {
    FewShotPrompt(TemplateId(PStance, Llama2),
      PStanceLlama2Instructions(target),
      examples, tweet, target, PStanceLlama2Question(target))
  }

  /** `PStance_mistral_zero_shot_template`. */
  function PStanceMistralZeroShot(tweet: string, target: string): (prompt: string)
    ensures Framed(TemplateId(PStance, Mistral), prompt)
    ensures Contains(prompt, TweetLine(tweet))
    ensures Contains(prompt, Quoted(target))
  {
    ZeroShotPrompt(TemplateId(PStance, Mistral),
      PStanceMistralInstructions(target) +
      "Analyze the " + "following tweet " + "carefully:\n\n",
      tweet, target, PStanceLlama2Question(target))
  }

  /** `PStance_mistral_few_shot_template`. */
  function PStanceMistralFewShot(tweet: string, target: string, examples: seq<Exemplar>): (prompt: string)
    ensures Framed(TemplateId(PStance, Mistral), prompt)
    ensures Contains(prompt, Leader(TemplateId(PStance, Mistral)) + Block(TemplateId(PStance, Mistral), examples) +
                             Trailer(TemplateId(PStance, Mistral)) + TweetLine(tweet))
    ensures Contains(prompt, Quoted(target))
  {
    FewShotPrompt(TemplateId(PStance, Mistral),
      PStanceMistralInstructions(target),
      examples, tweet, target, PStanceLlama2Question(target))
  }

  /** `PStance_qwen2_zero_shot_template`. */
  function PStanceQwen2ZeroShot(tweet: string, target: string): (prompt: string)
    ensures Framed(TemplateId(PStance, Qwen2), prompt)
    ensures Contains(prompt, TweetLine(tweet))
    ensures Contains(prompt, Quoted(target))
  {
    ZeroShotPrompt(TemplateId(PStance, Qwen2),
      PStanceQwen2Instructions(target) +
      "<|im_end|>\n" +
      "<|im_start|>user\n",
      tweet, target, PStanceQwen2Question(target))
  }

  /** `PStance_qwen2_few_shot_template`. */
  function PStanceQwen2FewShot(tweet: string, target: string, examples: seq<Exemplar>): (prompt: string)
    ensures Framed(TemplateId(PStance, Qwen2), prompt)
    ensures Contains(prompt, Leader(TemplateId(PStance, Qwen2)) + Block(TemplateId(PStance, Qwen2), examples) +
                             Trailer(TemplateId(PStance, Qwen2)) + TweetLine(tweet))
    ensures Contains(prompt, Quoted(target))
  {
    FewShotPrompt(TemplateId(PStance, Qwen2),
      PStanceQwen2Instructions(target),
      examples, tweet, target, PStanceQwen2Question(target))
  }

  // ---------------------------------------------------------------------------
  // The templates by (dataset, model) pair
  // ---------------------------------------------------------------------------

  /** The zero-shot template function of a pair, as the generators obtain it by name. */
  function ZeroShotFunction(id: TemplateId): (string, string) -> string {
    match (id.dataset, id.model)
    case (SemEval2016, Plain) => SemEval2016ZeroShot
    case (SemEval2016, Llama2) => SemEval2016Llama2ZeroShot
    case (SemEval2016, Mistral) => SemEval2016MistralZeroShot
    case (SemEval2016, Qwen2) => SemEval2016Qwen2ZeroShot
    case (TwitterStanceKemlm, Plain) => TwitterStanceKemlmZeroShot
    case (TwitterStanceKemlm, Llama2) => TwitterStanceKemlmLlama2ZeroShot
    case (TwitterStanceKemlm, Mistral) => TwitterStanceKemlmMistralZeroShot
    case (TwitterStanceKemlm, Qwen2) => TwitterStanceKemlmQwen2ZeroShot
    case (PStance, Plain) => PStanceZeroShot
    case (PStance, Llama2) => PStanceLlama2ZeroShot
    case (PStance, Mistral) => PStanceMistralZeroShot
    case (PStance, Qwen2) => PStanceQwen2ZeroShot
  }

  /** The few-shot template function of a pair, as the generators obtain it by name. */
  function FewShotFunction(id: TemplateId): (string, string, seq<Exemplar>) -> string {
    match (id.dataset, id.model)
    case (SemEval2016, Plain) => SemEval2016FewShot
    case (SemEval2016, Llama2) => SemEval2016Llama2FewShot
    case (SemEval2016, Mistral) => SemEval2016MistralFewShot
    case (SemEval2016, Qwen2) => SemEval2016Qwen2FewShot
    case (TwitterStanceKemlm, Plain) => TwitterStanceKemlmFewShot
    case (TwitterStanceKemlm, Llama2) => TwitterStanceKemlmLlama2FewShot
    case (TwitterStanceKemlm, Mistral) => TwitterStanceKemlmMistralFewShot
    case (TwitterStanceKemlm, Qwen2) => TwitterStanceKemlmQwen2FewShot
    case (PStance, Plain) => PStanceFewShot
    case (PStance, Llama2) => PStanceLlama2FewShot
    case (PStance, Mistral) => PStanceMistralFewShot
    case (PStance, Qwen2) => PStanceQwen2FewShot
  }

  /** The zero-shot template of a pair: framed by the pair's opening and closing
      (`[INST] <<SYS>>` ... `[/INST]` for Llama 2, `<|im_start|>system\n` ...
      `<|im_end|>\n` for Qwen 2), with the tweet embedded verbatim. Its value
      is always `ZeroShotFunction(id)(tweet, target)`: the match below is only
      the case split that brings each template's own contract into the proof. */
  function ZeroShotTemplate(id: TemplateId, tweet: string, target: string): (prompt: string)
    ensures Framed(id, prompt)
    ensures Contains(prompt, TweetLine(tweet))
    ensures Contains(prompt, Quoted(target))
  {
    match (id.dataset, id.model)
    case (SemEval2016, Plain) =>
      assert ZeroShotFunction(id) == SemEval2016ZeroShot;
      ZeroShotFunction(id)(tweet, target)
    case (SemEval2016, Llama2) =>
      assert ZeroShotFunction(id) == SemEval2016Llama2ZeroShot;
      ZeroShotFunction(id)(tweet, target)
    case (SemEval2016, Mistral) =>
      assert ZeroShotFunction(id) == SemEval2016MistralZeroShot;
      ZeroShotFunction(id)(tweet, target)
    case (SemEval2016, Qwen2) =>
      assert ZeroShotFunction(id) == SemEval2016Qwen2ZeroShot;
      ZeroShotFunction(id)(tweet, target)
    case (TwitterStanceKemlm, Plain) =>
      assert ZeroShotFunction(id) == TwitterStanceKemlmZeroShot;
      ZeroShotFunction(id)(tweet, target)
    case (TwitterStanceKemlm, Llama2) =>
      assert ZeroShotFunction(id) == TwitterStanceKemlmLlama2ZeroShot;
      ZeroShotFunction(id)(tweet, target)
    case (TwitterStanceKemlm, Mistral) =>
      assert ZeroShotFunction(id) == TwitterStanceKemlmMistralZeroShot;
      ZeroShotFunction(id)(tweet, target)
    case (TwitterStanceKemlm, Qwen2) =>
      assert ZeroShotFunction(id) == TwitterStanceKemlmQwen2ZeroShot;
      ZeroShotFunction(id)(tweet, target)
    case (PStance, Plain) =>
      assert ZeroShotFunction(id) == PStanceZeroShot;
      ZeroShotFunction(id)(tweet, target)
    case (PStance, Llama2) =>
      assert ZeroShotFunction(id) == PStanceLlama2ZeroShot;
      ZeroShotFunction(id)(tweet, target)
    case (PStance, Mistral) =>
      assert ZeroShotFunction(id) == PStanceMistralZeroShot;
      ZeroShotFunction(id)(tweet, target)
    case (PStance, Qwen2) =>
      assert ZeroShotFunction(id) == PStanceQwen2ZeroShot;
      ZeroShotFunction(id)(tweet, target)
  }

  /** The few-shot template of a pair: framed like the zero-shot one, with the
      example block between the pair's leader and trailer right before the tweet line.
      Its value is always `FewShotFunction(id)(tweet, target, examples)`: the match
      below is only the case split that brings each template's own contract into
      the proof. */
  function FewShotTemplate(id: TemplateId, tweet: string, target: string, examples: seq<Exemplar>): (prompt: string)
    ensures Framed(id, prompt)
    ensures Contains(prompt, Leader(id) + Block(id, examples) + Trailer(id) + TweetLine(tweet))
    ensures Contains(prompt, Quoted(target))
  {
    match (id.dataset, id.model)
    case (SemEval2016, Plain) =>
      assert FewShotFunction(id) == SemEval2016FewShot;
      FewShotFunction(id)(tweet, target, examples)
    case (SemEval2016, Llama2) =>
      assert FewShotFunction(id) == SemEval2016Llama2FewShot;
      FewShotFunction(id)(tweet, target, examples)
    case (SemEval2016, Mistral) =>
      assert FewShotFunction(id) == SemEval2016MistralFewShot;
      FewShotFunction(id)(tweet, target, examples)
    case (SemEval2016, Qwen2) =>
      assert FewShotFunction(id) == SemEval2016Qwen2FewShot;
      FewShotFunction(id)(tweet, target, examples)
    case (TwitterStanceKemlm, Plain) =>
      assert FewShotFunction(id) == TwitterStanceKemlmFewShot;
      FewShotFunction(id)(tweet, target, examples)
    case (TwitterStanceKemlm, Llama2) =>
      assert FewShotFunction(id) == TwitterStanceKemlmLlama2FewShot;
      FewShotFunction(id)(tweet, target, examples)
    case (TwitterStanceKemlm, Mistral) =>
      assert FewShotFunction(id) == TwitterStanceKemlmMistralFewShot;
      FewShotFunction(id)(tweet, target, examples)
    case (TwitterStanceKemlm, Qwen2) =>
      assert FewShotFunction(id) == TwitterStanceKemlmQwen2FewShot;
      FewShotFunction(id)(tweet, target, examples)
    case (PStance, Plain) =>
      assert FewShotFunction(id) == PStanceFewShot;
      FewShotFunction(id)(tweet, target, examples)
    case (PStance, Llama2) =>
      assert FewShotFunction(id) == PStanceLlama2FewShot;
      FewShotFunction(id)(tweet, target, examples)
    case (PStance, Mistral) =>
      assert FewShotFunction(id) == PStanceMistralFewShot;
      FewShotFunction(id)(tweet, target, examples)
    case (PStance, Qwen2) =>
      assert FewShotFunction(id) == PStanceQwen2FewShot;
      FewShotFunction(id)(tweet, target, examples)
  }

  /** Calling the zero-shot function found for a pair is applying that pair's template. */
  lemma ZeroShotFunctionIsTemplate(id: TemplateId, tweet: string, target: string)
    ensures ZeroShotFunction(id)(tweet, target) == ZeroShotTemplate(id, tweet, target)
  {
  }

  /** Calling the few-shot function found for a pair is applying that pair's template. */
  lemma FewShotFunctionIsTemplate(id: TemplateId, tweet: string, target: string, examples: seq<Exemplar>)
    ensures FewShotFunction(id)(tweet, target, examples) == FewShotTemplate(id, tweet, target, examples)
  {
  }

  /** What framing means for the chat models: Llama 2 prompts open with
      `[INST] <<SYS>>` and close with `[/INST]`, Qwen 2 prompts open a system
      turn and close with `<|im_end|>` and a newline. */
  lemma ModelFraming(id: TemplateId, prompt: string)
    requires Framed(id, prompt)
    ensures id.model == Llama2 ==> StartsWith(prompt, "[INST] <<SYS>>") && EndsWith(prompt, "[/INST]")
    ensures id.model == Qwen2 ==> StartsWith(prompt, "<|im_start|>system\n") && EndsWith(prompt, "<|im_end|>\n")
  {
  }

  /** With no examples the block is empty: the leader is followed directly by
      the trailer and the tweet line. */
  lemma FewShotWithoutExamples(id: TemplateId, tweet: string, target: string, examples: seq<Exemplar>)
    requires |examples| == 0
    ensures Contains(FewShotTemplate(id, tweet, target, examples), Leader(id) + Trailer(id) + TweetLine(tweet))
  {
    assert examples == [];
    EmptyBlock(id);
    ContainsWithoutEmpty(FewShotTemplate(id, tweet, target, examples), Leader(id), Block(id, examples),
                         Trailer(id), TweetLine(tweet));
  }
}
