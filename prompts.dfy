/** The prompt sent to the generation endpoint: the system instruction, one labelled
    user turn, and the cue for the assistant's answer. */
module Prompts {
  import opened Protocol

  /** The assistant's standing instruction. Only its first sentence is kept here;
      nothing below depends on its wording. */
  const SystemInstruction: Text := "You are Rev, the AI voice assistant for Revolt Motors."

  const VoiceLabel: Text := "User (via voice)"
  const TypedLabel: Text := "User"

  /** Stands in for the user's words when an audio payload carries no transcript. */
  const FallbackTranscript: Text := "User spoke in voice about Revolt Motors electric bikes."

  const Cue: Text := "\n\nRev:"

  predicate IsLabel(speaker: Text) {
    speaker == VoiceLabel || speaker == TypedLabel
  }

  /** The speaker of a text-path turn: voice-transcribed or typed. */
  function TextLabel(isVoice: bool): (speaker: Text)
    ensures IsLabel(speaker)
    ensures speaker == VoiceLabel <==> isVoice
  {
    if isVoice then VoiceLabel else TypedLabel
  }

  /** The prompt for one user turn. */
  function Prompt(speaker: Text, input: Text): (p: Text)
    ensures |p| == |SystemInstruction| + |speaker| + |input| + 10
    ensures p[..|SystemInstruction|] == SystemInstruction
    ensures p[|p| - |Cue|..] == Cue
    ensures p[|SystemInstruction|..|p| - |Cue|] == "\n\n" + speaker + ": " + input
  {
    var p := SystemInstruction + "\n\n" + speaker + ": " + input + Cue;
    assert p == SystemInstruction + ("\n\n" + speaker + ": " + input) + Cue;
    p
  }

  /** What the user said in an audio payload: its `text` when that is a non-empty
      string (JavaScript truthiness), the fixed fallback sentence otherwise. */
  function Transcript(text: Option<Text>): (t: Text)
    ensures text.Some? && text.value != [] ==> t == text.value
    ensures text.None? || text.value == [] ==> t == FallbackTranscript
  {
    if text.Some? && text.value != [] then text.value else FallbackTranscript
  }

  /** How a template literal renders the `text` field of a text frame: a missing
      field becomes the word "undefined". */
  function Rendered(text: Option<Text>): (t: Text)
    ensures text.Some? ==> t == text.value
    ensures text.None? ==> t == "undefined"
  {
    match text
    case Some(s) => s
    case None => "undefined"
  }

  /** The prompt of `processTextInput`: the label its voice flag selects and the
      rendered `text` field. */
  function TextPrompt(text: Option<Text>, isVoice: bool): (p: Text)
  {
    Prompt(TextLabel(isVoice), Rendered(text))
  }

  /** The prompt of `processAudioInput`. Its template is the voice-labelled text
      template, so an audio turn and a voice-text turn with the same words give the
      same prompt. */
  function AudioPrompt(audio: AudioPayload): (p: Text)
    requires audio.Audio?
    ensures p == TextPrompt(Some(Transcript(audio.text)), true)
  {
    Prompt(VoiceLabel, Transcript(audio.text))
  }

  /** A text-path prompt determines the voice flag and the rendered input. */
  lemma TextPromptDeterminesTurn(t1: Option<Text>, v1: bool, t2: Option<Text>, v2: bool)
    requires TextPrompt(t1, v1) == TextPrompt(t2, v2)
    ensures v1 == v2 && Rendered(t1) == Rendered(t2)
  {
    PromptDeterminesTurn(TextLabel(v1), Rendered(t1), TextLabel(v2), Rendered(t2));
  }

  /** A prompt determines both its speaker and the user's input: the voice and typed
      labels cannot be confused, and no two inputs give the same prompt. */
  lemma {:induction false} PromptDeterminesTurn(l1: Text, i1: Text, l2: Text, i2: Text)
    requires IsLabel(l1) && IsLabel(l2)
    requires Prompt(l1, i1) == Prompt(l2, i2)
    ensures l1 == l2 && i1 == i2
  {
    var p := Prompt(l1, i1);
    var t1 := "\n\n" + l1 + ": " + i1;
    var t2 := "\n\n" + l2 + ": " + i2;
    assert t1 == p[|SystemInstruction|..|p| - |Cue|] == t2;
    assert t1[6] == t2[6];
    assert l1 == l2;
    assert i1 == t1[|l1| + 4..];
    assert i2 == t2[|l2| + 4..];
  }
}
