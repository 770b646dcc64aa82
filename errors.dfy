/** The error normaliser: error text is classified, by the first matching
    substring of its lower-cased form, into one of five fixed user-facing
    messages. */
module Errors {
  import opened Text

  const NoColumnMessage := "That column doesn\U{2019}t exist. " + "I\U{2019}ll re-check the schema."
  const AmbiguousMessage := "Ambiguous column \U{2014} " + "I\U{2019}ll qualify with table aliases."
  const SyntaxMessage := "The SQL had a syntax issue " + "\U{2014} I\U{2019}ll fix it."
  const TimeoutMessage := "Query took too long \U{2014} " + "I can add filters or a LIMIT."
  const GenericMessage := "Something went wrong " + "executing the query."

  /** `normalize_error` on the text of the error. */
  function NormalizeError(err: string): (r: string)
    ensures r in {NoColumnMessage, AmbiguousMessage, SyntaxMessage, TimeoutMessage, GenericMessage}
  {
    var msg := ToLower(err);
    if Contains(msg, "no such column") then NoColumnMessage
    else if Contains(msg, "ambiguous column") then AmbiguousMessage
    else if Contains(msg, "syntax error") then SyntaxMessage
    else if Contains(msg, "timeout") then TimeoutMessage
    else GenericMessage
  }

  /** The five messages are pairwise distinct. */
  lemma MessagesDistinct()
    ensures NoColumnMessage != AmbiguousMessage && NoColumnMessage != SyntaxMessage
    ensures NoColumnMessage != TimeoutMessage && NoColumnMessage != GenericMessage
    ensures AmbiguousMessage != SyntaxMessage && AmbiguousMessage != TimeoutMessage
    ensures AmbiguousMessage != GenericMessage && SyntaxMessage != TimeoutMessage
    ensures SyntaxMessage != GenericMessage && TimeoutMessage != GenericMessage
  {
    assert NoColumnMessage[0] == 'T' && NoColumnMessage[2] == 'a';
    assert SyntaxMessage[0] == 'T' && SyntaxMessage[2] == 'e';
    assert AmbiguousMessage[0] == 'A' && TimeoutMessage[0] == 'Q' && GenericMessage[0] == 'S';
  }

  /** Each message is given exactly for its condition: the first of the
      four patterns that occurs decides, and none gives the generic one. */
  lemma NormalizeErrorCases(err: string)
    ensures var msg := ToLower(err); var r := NormalizeError(err);
      && (r == NoColumnMessage <==> Contains(msg, "no such column"))
      && (r == AmbiguousMessage <==>
            !Contains(msg, "no such column") && Contains(msg, "ambiguous column"))
      && (r == SyntaxMessage <==>
            !Contains(msg, "no such column") && !Contains(msg, "ambiguous column") &&
            Contains(msg, "syntax error"))
      && (r == TimeoutMessage <==>
            !Contains(msg, "no such column") && !Contains(msg, "ambiguous column") &&
            !Contains(msg, "syntax error") && Contains(msg, "timeout"))
      && (r == GenericMessage <==>
            !Contains(msg, "no such column") && !Contains(msg, "ambiguous column") &&
            !Contains(msg, "syntax error") && !Contains(msg, "timeout"))
  {
    MessagesDistinct();
  }

  /** The classification ignores letter case. */
  lemma NormalizeErrorIgnoresCase(err: string)
    ensures NormalizeError(ToLower(err)) == NormalizeError(err)
  {
    ToLowerIdempotent(err);
  }
}
