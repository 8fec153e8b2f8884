/** The prompts list page: message previews are shortened to a maximum length. */
module PromptsPage {

  /** The preview length used by the list. */
  const DefaultMaxLength: nat := 100

  /** `truncateMessage`: the message itself when short enough, else its first `maxLength`
      characters and an ellipsis. */
  function TruncateMessage(message: string, maxLength: nat): (preview: string)
    ensures |message| <= maxLength ==> preview == message
    ensures |message| > maxLength ==> preview == message[..maxLength] + "..."
  {
    if |message| <= maxLength then message else message[..maxLength] + "..."
  }

  /** A preview is never longer than the limit plus the ellipsis, and it starts with as much
      of the message as fits the limit. */
  lemma PreviewShape(message: string, maxLength: nat)
    ensures var preview := TruncateMessage(message, maxLength);
      var kept := if |message| <= maxLength then |message| else maxLength;
      |preview| <= maxLength + 3 && message[..kept] <= preview
  {
    var preview := TruncateMessage(message, maxLength);
    if |message| > maxLength {
      assert preview[..maxLength] == message[..maxLength];
    }
  }

  /** The list's preview is the one with the default limit. */
  lemma ListPreview(message: string)
    ensures |TruncateMessage(message, DefaultMaxLength)| <= 103
    ensures |message| <= 100 ==> TruncateMessage(message, DefaultMaxLength) == message
  {
    PreviewShape(message, DefaultMaxLength);
  }
}
