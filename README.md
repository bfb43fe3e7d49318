# Live-class page scripts: a verified model

This project models the browser-side logic of a live-class web page and its AI
assistant panel, written in JavaScript in `static/js/live_class.js` and
`static/js/ai_integration.js`. The page wires DOM controls to media, a shared
whiteboard, chat, a participant roster and a remote inference endpoint. Beneath
that wiring are small, single-threaded state updates, and those are modelled
here:

- **Course id** (`Text`). The course id is read from the URL path. The model
  includes JavaScript's `trim` and `split`, with `split`/`join` round trips.
- **Whiteboard** (`WhiteboardSync`). The pen is a two-state machine driven by
  mouse events. The canvas is the sequence of segments painted since the last
  clear. Line and clear messages go out on the channel, and remote ones are
  applied.
  - The closure's behaviour is the pure transition function `Handle`. The
    class `Whiteboard` holds the closure's variables as fields, and each of its
    handlers is proved to follow `Handle`.
  - Lemmas over event sequences prove four things:
    - one drag emits a chain of segments;
    - the canvas holds exactly what was painted after the last clear;
    - received complete lines are painted in the order they arrive;
    - a peer that applies every message the page emits ends with the same
      canvas as the page. This holds when the page itself received no drawings
      in the meantime, its pen had a non-empty colour and a positive width,
      and no empty colour was picked.
- **Media toggles** (`Media`). The mute and camera flags are flipped together
  with the first track's `enabled` flag and the button icon.
- **Chat and roster** (`Chat`, `Roster`).
  - Sending trims the input and guards against blank text.
  - New entries are appended to the scrollback.
  - A participant is removed at the first entry with the same display name.
- **Tabs** (`Tabs`). Exactly one button and at most one panel are active.
- **Engagement meter** (`Engagement`). The dominant expression is selected by
  `reduce` with a strict `>`, so ties go to the later entry. A weight table
  turns it into a value.
- **AI panel** (`AIPanel`). It covers the mode switch, the blank-query and
  no-file guards, and the `answer || error` fallback for displayed text. It
  also covers the recording flag, which becomes true only in the session's
  `onstart`, and the read-aloud guard.

The live-class emits go to a `Channel.Socket`, which records every message
sent on it in order. Each backend request is recorded when it is made. Its
reply is passed to a separate method, which models the code that resumes
after `await`.

The dominant expression is chosen by `reduce((a, b) => a[1] > b[1] ? a : b)`.
That keeps the accumulator only against a strictly smaller score, so ties go to
the later entry (`Engagement.TieGoesToLaterEntry`, `Engagement.TieExample`).

## Model

| member | source | states |
|---|---|---|
| Seqs.FirstIndexOf | static/js/live_class.js:310-311 | a linear scan finds the first position holding the value, which is absent from everything before it; there is no result exactly when the value does not occur |
| Text.Trim | static/js/live_class.js:262 | `trim` keeps the text between leading and trailing whitespace; the result is empty exactly when the input is blank, and otherwise starts and ends with non-whitespace |
| Text.TrimRemovesPadding | static/js/live_class.js:262 | any text without outer whitespace, padded on both sides with whitespace, trims back to itself |
| Text.TrimIdempotent | static/js/ai_integration.js:82 | trimming a trimmed query changes nothing |
| Text.Split | static/js/live_class.js:3 | splitting on `/` yields at least one part, and no part contains `/` |
| Text.JoinSplit | static/js/live_class.js:3 | joining the parts of a split with the separator gives back the path |
| Text.SplitJoin | static/js/live_class.js:3 | splitting a join of separator-free parts gives back the parts |
| Text.SplitAround | static/js/live_class.js:3 | splitting at a separator splits the text before it and the text after it independently |
| Text.CourseIdFromPath | static/js/live_class.js:3-4 | the course id is a segment of the split path and never contains `/` |
| Text.CourseIdUndefinedIffNoSlash | static/js/live_class.js:3-4 | the course id is undefined exactly when the path has no `/` |
| Text.CourseIdBetweenLastSlashes | static/js/live_class.js:3-4 | the course id is the segment between the last two slashes, or what precedes the only slash |
| Channel.Socket.Emit | static/js/live_class.js:162-165 | an emit appends exactly one message after all earlier ones |
| WhiteboardSync.Handle | static/js/live_class.js:124-185 | each handler emits at most one drawing, and emits exactly when it is a move while drawing or a clear. Only mousedown and mouseup/mouseout change the drawing flag. Only the pickers and received drawings change the pen |
| WhiteboardSync.ApplyDrawing | static/js/live_class.js:174-185 | a received drawing never touches the local drawing flag or last point. Only a line changes the pen. A clear empties the canvas; anything else keeps the canvas as a prefix and adds at most one segment |
| WhiteboardSync.MoveWhileIdleIsNoop | static/js/live_class.js:145-146 | a move outside drawing mode leaves the state unchanged and emits nothing |
| WhiteboardSync.MoveEmitsOneSegment | static/js/live_class.js:148-167 | a move in drawing mode paints one segment from the last point with the current pen; it emits exactly one line message carrying the same end points, colour and width; the move point becomes the last point |
| WhiteboardSync.StopOnlyEndsDrawing | static/js/live_class.js:170-172 | `stopDrawing` clears the drawing flag and changes nothing else |
| WhiteboardSync.ClearEmitsOneClear | static/js/live_class.js:132-138 | clear empties the canvas, emits exactly one `{type:'clear'}` and keeps the pen and pointer state |
| WhiteboardSync.ReceivedLineAppendsOne | static/js/live_class.js:174-181 | a received line appends exactly one segment. Its colour is black when the message colour is falsy. Its width is 2 when the message width is falsy (including 0), and the current width when negative. The pen is left as used |
| WhiteboardSync.ReceivedOtherDrawings | static/js/live_class.js:174-185 | a received clear empties the canvas; any other type, or a line missing an end point, changes nothing |
| WhiteboardSync.ChainedWhileDrawing | static/js/live_class.js:145-167 | while the pen is down, the emitted lines chain from the last point, and the last point ends at the last move |
| WhiteboardSync.DragIsChained | static/js/live_class.js:140-167 | within one drag, the first segment starts at the mousedown point and each later one where the previous ended; afterwards the pen is down at the last move point |
| WhiteboardSync.CanvasOnlyGrows | static/js/live_class.js:148-151 | without a clear the canvas only grows. What it gains, the messages and the rest of the state are the same as on a blank canvas |
| WhiteboardSync.CanvasIsWhatFollowsLastClear | static/js/live_class.js:182-184 | after a local or received clear, the canvas is exactly what the later events leave when started on a blank canvas |
| WhiteboardSync.ReceivedLinesPaintInOrder | static/js/live_class.js:174-181 | received lines with both end points keep the existing canvas as a prefix and append one segment each, in arrival order, between the end points each message carries |
| WhiteboardSync.PeersConverge | static/js/live_class.js:148-185 | a peer that starts from the same canvas and applies every emitted message, in order, ends with the same canvas. This holds when the page's events are all local (no received drawings, no empty picked colour) and its pen starts with a non-empty colour and a positive width |
| WhiteboardSync.Whiteboard.constructor | static/js/live_class.js:105-115 | not drawing, last point (0,0), pen from the picker and brush size (a non-positive size leaves the default width 1), blank canvas |
| WhiteboardSync.Whiteboard.StartDrawing | static/js/live_class.js:140-143 | the new state is `Handle` of the mousedown |
| WhiteboardSync.Whiteboard.Draw | static/js/live_class.js:145-168 | the new state and the messages emitted are `Handle` of the move |
| WhiteboardSync.Whiteboard.StopDrawing | static/js/live_class.js:170-172 | the new state is `Handle` of the mouseup/mouseout |
| WhiteboardSync.Whiteboard.ClearWhiteboard | static/js/live_class.js:132-138 | the new state and the single emitted clear are `Handle` of the clear button |
| WhiteboardSync.Whiteboard.ChangeColor | static/js/live_class.js:124-126 | the pen colour becomes the picked colour |
| WhiteboardSync.Whiteboard.ChangeBrushSize | static/js/live_class.js:128-130 | the pen width becomes the chosen size when positive |
| WhiteboardSync.Whiteboard.UpdateWhiteboard | static/js/live_class.js:174-185 | the new state is `Handle` of the received drawing |
| Media.MediaControls.constructor | static/js/live_class.js:39-41 | both flags start false, the icons match them, and the stream is the granted one or null |
| Media.MediaControls.ToggleMute | static/js/live_class.js:189-199 | with an audio track, the flag flips, the track is enabled exactly when not muted, and the icon matches; with no stream or track nothing changes; the flags, tracks and icons stay consistent |
| Media.MediaControls.ToggleVideo | static/js/live_class.js:201-211 | the same for the video flag, the first video track and its icon |
| Media.MuteTwiceRestores | static/js/live_class.js:189-199 | toggling mute twice restores the flag, the track's enabled flag and the icon |
| Media.VideoTwiceRestores | static/js/live_class.js:201-211 | toggling video twice restores the flag, the track's enabled flag and the icon |
| Chat.ChatPanel.SendMessage | static/js/live_class.js:260-273 | a non-blank input with a socket emits the trimmed text once, appends one `You` self entry and empties the input; otherwise nothing is emitted, appended or cleared |
| Chat.ChatPanel.KeyPress | static/js/live_class.js:34-36 | Enter sends as above; any other key changes nothing |
| Chat.ChatPanel.AddChatMessage | static/js/live_class.js:275-285 | one chat entry with the sender, text and self flag is appended |
| Chat.ChatPanel.AddSystemMessage | static/js/live_class.js:287-294 | one system entry is appended |
| Roster.RemoveFirst | static/js/live_class.js:308-315 | removal shortens the list by one exactly when the name is listed, and removes exactly one copy of the name from the multiset of names |
| Roster.RemoveAbsentIsNoop | static/js/live_class.js:311-314 | removing a name that is not listed changes nothing |
| Roster.RemoveFirstOccurrence | static/js/live_class.js:308-315 | removing a listed name deletes only its first occurrence. Earlier entries stay in place and later ones move up by one, and the multiset loses exactly one copy of the name |
| Roster.AddThenRemove | static/js/live_class.js:301-315 | adding then removing a new name restores the roster; for a name already listed, the earlier entry is removed instead |
| Roster.ParticipantList.UpdateParticipantCount | static/js/live_class.js:297-299 | the shown count is the server's value; the list is untouched |
| Roster.ParticipantList.AddParticipant | static/js/live_class.js:301-306 | the name is appended at the end |
| Roster.ParticipantList.RemoveParticipant | static/js/live_class.js:308-315 | the list becomes the old list without the first entry equal to the name; the count is untouched |
| Tabs.TabStrip.SelectTab | static/js/live_class.js:10-23 | the clicked button is the only active one; the first panel with id `<tab>-tab` is the only active panel, or none is active when there is no such panel |
| Engagement.ReduceFrom | static/js/ai_integration.js:52 | continuing the reduce from a last maximum of a prefix yields a last maximum of the whole list |
| Engagement.DominantIndex | static/js/ai_integration.js:52 | the selected position has a score at least every other score, and every later entry scores strictly less |
| Engagement.Dominant | static/js/ai_integration.js:52 | the dominant expression is one of the entries and scores at least every entry; there is none exactly for an empty list |
| Engagement.TieGoesToLaterEntry | static/js/ai_integration.js:52 | of two entries tied at the top score, the earlier one is never selected |
| Engagement.TieExample | static/js/ai_integration.js:52 | neutral and happy tied at 0.5 give happy |
| Engagement.WeightTableKeys | static/js/ai_integration.js:59-67 | the table covers exactly the seven expressions happy, neutral, surprised, sad, angry, fearful and disgusted |
| Engagement.WeightTableRanked | static/js/ai_integration.js:59-67 | every ranked expression has a weight, and the weights strictly decrease from happy to disgusted |
| Engagement.WeightsInRange | static/js/ai_integration.js:59-67 | every weight lies in [10, 90] |
| Engagement.EngagementValue | static/js/ai_integration.js:69 | for a score in [0,1] the unrounded value lies in [0, weight], within [0, 90] |
| Engagement.Sample | static/js/ai_integration.js:50-69 | a non-empty score list yields the emotion of the last entry with the highest score, paired with that emotion's weight times that entry's score; this value lies in [0, 90] when the scores lie in [0,1]; an empty list yields nothing |
| AIPanel.TextReplyContent | static/js/ai_integration.js:96-99 | the text path shows a truthy `response`, else `error`, else `undefined` |
| AIPanel.ImageReplyContent | static/js/ai_integration.js:169-172 | the image path shows a truthy `caption`, else `error`, else `undefined` |
| AIPanel.ReplyFallbacks | static/js/ai_integration.js:97-99 | a thrown error shows `Error: ` and its message on both paths; each path ignores the other's answer field |
| AIPanel.AIIntegration.constructor | static/js/ai_integration.js:2-4 | not recording and no recognition session |
| AIPanel.AIIntegration.SwitchMode | static/js/ai_integration.js:74-79 | exactly the first container of the chosen mode is active, or none when the mode has no container |
| AIPanel.AIIntegration.ProcessTextQuery | static/js/ai_integration.js:81-95 | a blank query shows nothing and sends nothing; otherwise the loading text is shown and one `/generate` request with the trimmed text and 300 tokens is made |
| AIPanel.AIIntegration.CompleteTextQuery | static/js/ai_integration.js:96-100 | the shown text is the text path's fallback for the reply |
| AIPanel.AIIntegration.ProcessImageQuery | static/js/ai_integration.js:156-168 | with no file nothing happens; otherwise the loading text is shown and the first file is sent |
| AIPanel.AIIntegration.CompleteImageQuery | static/js/ai_integration.js:169-173 | the shown text is the image path's fallback for the reply |
| AIPanel.AIIntegration.StartRecording | static/js/ai_integration.js:111-129 | a fresh English session is started and `isRecording` is left unchanged; without speech recognition nothing changes |
| AIPanel.AIIntegration.RecognitionStarted | static/js/ai_integration.js:115-119 | `onstart` sets the recording flag and status |
| AIPanel.AIIntegration.RecognitionResult | static/js/ai_integration.js:121-126 | the transcript fills the transcript and query fields, and is submitted as a text query |
| AIPanel.AIIntegration.StopRecording | static/js/ai_integration.js:131-138 | the session, if any, is stopped and keeps its language. The panel is always left not recording and ready |
| AIPanel.AIIntegration.ToggleVoiceRecording | static/js/ai_integration.js:103-109 | when recording, stops as above; otherwise starts a session without setting the flag |
| AIPanel.AIIntegration.ReadAloud | static/js/ai_integration.js:185-191 | the response text is spoken exactly when it is non-empty and speech synthesis exists |

## Left out

- Media acquisition is not modelled: `getUserMedia`, the alert on failure, and the video element. The granted stream, or null, is a constructor argument.
- `toggleScreenShare` is not modelled. It relies on a `peerConnection` that is never defined.
- `leaveClass` is not modelled: its navigation and track stopping are browser effects.
- The Socket.IO connection, `join_class`, and the registration of the `user_joined`, `user_left`, `new_message` and `whiteboard_updated` handlers are not modelled. The handler bodies only call the modelled operations.
- The `whiteboard_updated` handler calls `updateWhiteboard` outside the closure that defines it, so the registered handler cannot reach it. `WhiteboardSync.Whiteboard.UpdateWhiteboard` models the function itself, and the unused `user` argument is dropped.
- Raster painting is abstracted: the canvas is its sequence of segments. Canvas size, `lineCap`, HTML rendering, `innerHTML` interpolation (unescaped), scrolling and icon markup are not modelled. Icons are two-valued enums.
- WhiteboardSync.Whiteboard.ChangeColor: colours are stored verbatim. The canvas's rejection and normalisation of colour strings is not modelled.
- Coordinates, widths and scores are integers and exact reals. Fractional pixels and NaN are not modelled.
- The response element's text is the displayed string itself. Parsing it as HTML into `textContent` is not modelled.
- `previewImage` is not modelled because it depends on `FileReader`. `copyResponse` is not modelled because it depends on the clipboard and `alert`.
- `fetch`, JSON parsing and `FormData` are not modelled. A request is a recorded value, and a reply is the parsed fields or a thrown message.
- The speech-recognition and speech-synthesis engines are not modelled. A session is a `lang` and a listening flag, and speech is a list of utterances.
- Face-api model loading and detection, the 5-second `setInterval`, and the video `readyState` guard are not modelled. The expression scores are an input.
- Engagement.EngagementValue: states the value before `Math.round`, because rounding a floating-point product is not modelled. The function requires an emotion from the table, where the code would produce NaN.
- Engagement.Sample: requires every emotion to be in the table, for the same reason.
- Tabs.TabStrip.SelectTab and AIPanel.AIIntegration.SwitchMode: `getElementById` and `querySelector` search the whole document, but the model searches only the listed `.tab-content` panels and `.ai-input-container` elements. An element elsewhere in the page with a matching id or `data-mode` is not modelled.
