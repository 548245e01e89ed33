/**
 * What the bot sends back to the chat, as abstract events. Markdown styling,
 * emoji and keyboards are not modelled; the fixed plain texts are.
 */
module Chat {

  type Bytes = seq<bv8>

  datatype Notice =
    | Reply(text: string)                                     // update.message.reply_text
    | ProcessingNotice                                        // the "Processing your image" message
    | DeleteProcessingNotice                                  // bot.delete_message of that message
    | Document(filename: string, content: Bytes, caption: string)
    | QualityPicker                                           // prompt with the Standard/HD keyboard
    | FormatPicker                                            // prompt with the PNG/JPG keyboard
    | QualitySet(chosen: string)                              // query.edit_message_text after a choice
    | FormatSet(chosen: string)
    | AdminPanel(totalUsers: nat, totalRequests: nat)

  const DeniedText := "Sorry, this command is for the bot administrator only."
  const CancelText := "Action cancelled."
  const UnexpectedText := "An unexpected error occurred. Please try again later."
  const DocumentCaption := "Here is your image!"

  /** The reply to a non-OK answer of the background-removal service. */
  function ApiErrorText(reason: string): (text: string)
    ensures |text| > 11 + |reason|
    ensures text[..11] == "API Error: " && text[11..11 + |reason|] == reason
  {
    "API Error: " + reason + ". Please check that your remove.bg API Key is correct."
  }
}
