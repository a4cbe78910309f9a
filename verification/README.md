# Delivery-assistant chatbot: a Dafny model of its reply logic

The application is a single-user Streamlit demo of a package-tracking chatbot.
A session holds a chat log and an in-memory store with one hard-coded shipment,
`TRK123456`. Each message the user sends is lowered and tested against fixed
keyword groups in a fixed order. The first group that matches decides the reply:

- track / status
- carbon / environmental
- weather
- analytics
- a greeting
- "delivery time"
- help
- otherwise, a fallback

A track query extracts the leftmost `TRK` + six digits from the upper-cased
message and looks it up. There are three outcomes:

- a format prompt, when the message holds no such number;
- a "not found" reply, when the number is not in the store;
- a summary of the record, shown beside weather alerts for the latest update
  and delivery analytics.

The model is split into these modules:

- `Wrappers` (`wrappers.dfy`): the optional value returned by lookups and searches.
- `Text` (`text.dfy`): ASCII case folding and Python's substring test `w in s`.
- `Shipments` (`shipments.dfy`): the shipment record and the store. It also holds
  the initial session store, lookup, and the analytics computation. The random
  draws are an explicit parameter there.
- `WeatherAlerts` (`weather.dfy`): the heat and freeze alert rule.
- `TrackingNumbers` (`tracking.dfy`): the `TRK\d{6}` pattern and the
  leftmost-match search.
- `Bot` (`bot.dfy`): intent classification and the reply. Replies are datatype
  constructors that carry the fields the reply text shows.
- `Chat` (`chat.dfy`): the session, "Send" and "Clear", and the invariant that the
  log is a list of (message, reply) pairs over an unchanged store.
- `Scenarios` (`scenarios.dfy`): concrete conversations with the initial store.

The track branch is selected by "track" or "status" alone; it does not also
require a tracking number. A message that has one of those words but no number
gets the format prompt and never falls through to a later branch.

## Model

| member | source | states |
|---|---|---|
| WeatherAlerts.WeatherAlert | streamlit_app.py:134-141 | at most one alert; a heat alert exactly when the temperature is above 85, a freeze alert exactly when below 32, none for 32..85 inclusive; the alert names the location |
| Text.ContainsIffOccurs | streamlit_app.py:148 | the substring test used for every keyword holds exactly when the keyword occurs at some position of the text |
| TrackingNumbers.FirstNumberFrom | streamlit_app.py:149 | the scan returns a position where `TRK` + six digits starts, with no match between the start and it, or reports that no match exists from the start on |
| TrackingNumbers.Search | streamlit_app.py:149-151 | no result exactly when the text holds no `TRK` + six digits; otherwise the result is a well-formed 9-character number (prefix `TRK`, six digits) taken from the leftmost match |
| TrackingNumbers.SearchFindsLeftmost | streamlit_app.py:149-151 | whenever a match starts at `i` and none earlier, the search returns the nine characters at `i` |
| TrackingNumbers.SearchIgnoresSuffix | streamlit_app.py:149-151 | appending any text after a message that already holds a number does not change the number found |
| TrackingNumbers.TrailingDigitsIgnored | streamlit_app.py:149-151 | `TRK1234567` yields `TRK123456` |
| Bot.ClassifyIntent | streamlit_app.py:148-240 | the chain of substring tests picks the first keyword group, in the priority order, that the lowered text hits, and the fallback when none is hit |
| Bot.FirstHit | streamlit_app.py:148-226 | the index found is the first group in priority order that is hit; every group before it is missed |
| Bot.FirstMatchWins | streamlit_app.py:148-226 | a group that is hit, with every earlier group missed, decides the branch whatever later keywords the text also holds |
| Bot.FallbackExactly | streamlit_app.py:239-240 | the fallback branch is taken exactly when no keyword of any group occurs |
| Bot.WeatherBeforeAnalytics | streamlit_app.py:213-217 | a text with both "weather" and "analytics", and no track or carbon keyword, is classified as weather |
| Bot.GreetingInsideWord | streamlit_app.py:220-221 | any text containing "which" is classified as a greeting unless an earlier branch fires, because "hi" matches inside words |
| Bot.TrackReply | streamlit_app.py:149-208 | the track reply is the format prompt exactly when no number is found, "not found" exactly when the number found is not in the store, and a record summary exactly when it is |
| Bot.Answer | streamlit_app.py:148-240 | the reply produced belongs to the branch it was asked for |
| Bot.Reply | streamlit_app.py:143-240 | the branch of the reply is the highest-priority keyword group hit by the lowered message |
| Bot.ReplyIgnoresCase | streamlit_app.py:145 | lowering or upper-casing the message first does not change the reply |
| Bot.TrackSearchesUpperInput | streamlit_app.py:145-149 | upper-casing the lowered message finds the same number as upper-casing the message itself; `track trk123456` yields `TRK123456` |
| Bot.TrackBranch | streamlit_app.py:148-149 | the reply is a track reply exactly when "track" or "status" occurs in the lowered message; it then answers from the upper-cased message |
| Bot.BadFormatExactly | streamlit_app.py:207-208 | the format prompt is the reply exactly when the message has track intent and holds no `TRK` + six digits |
| Bot.NotFoundExactly | streamlit_app.py:152-206 | "not found" is the reply exactly when the message has track intent and a well-formed number that is not a key of the store |
| Bot.Summarize | streamlit_app.py:186-204 | the summary shows the record's number, status, three city names, delivery date, weight, dimensions, type, carbon footprint and safe place, and "Yes" exactly when a signature is required, "No" exactly when not |
| Bot.TrackedReport | streamlit_app.py:152-204 | for a stored number the reply is a summary carrying the number, status, the three city names, the delivery date, weight, dimensions, type, the carbon footprint, "Yes"/"No" for the signature flag and the safe place, with the alerts for the latest update's location and temperature, and the record's delivery analytics: a stop count equal to the number of updates and distance, time, efficiency and fuel figures in their ranges |
| Shipments.InitialStore | streamlit_app.py:15-59 | the session starts with exactly one record, `TRK123456`: In Transit from New York to Los Angeles, now in Chicago, with the given delivery date, two updates, the latest in Chicago at 68 degrees, and a signature required |
| Shipments.Lookup | streamlit_app.py:63-65 | a lookup yields the stored record exactly when the number is a key, and nothing otherwise |
| Shipments.Uniform | streamlit_app.py:68-72 | a uniform draw over [lo, hi] from a sample in [0, 1) lies in [lo, hi], strictly below hi when the range is not empty |
| Shipments.DeliveryAnalytics | streamlit_app.py:61-74 | no analytics for an unknown number; otherwise the stop count equals the number of status updates and the four placeholder figures lie in their documented ranges |
| Shipments.StopsIgnoreDraws | streamlit_app.py:70 | the stop count is the same whatever the random draws |
| Chat.Start | streamlit_app.py:12-17 | a fresh session has an empty log, which is trivially paired, over the initial store |
| Chat.Send | streamlit_app.py:249-253 | an empty message changes nothing; otherwise exactly the user's turn and then the bot's reply are appended after the unchanged earlier turns, and the store is not modified |
| Chat.Clear | streamlit_app.py:292-293 | the log becomes empty and the store is not modified |
| Chat.SendKeepsPairs | streamlit_app.py:249-253 | after a send the log is still a list of (non-empty user message, bot reply to that message) pairs |
| Chat.RunKeepsStoreAndPairs | streamlit_app.py:249-253 | no sequence of sends and clears changes the store, and the log stays a list of message/reply pairs |
| Chat.SessionLogIsPaired | streamlit_app.py:12-17 | starting from a fresh session, every log reached by sends and clears pairs each message with a reply computed from the initial store |
| Scenarios.TrackSampleShipment | streamlit_app.py:18-58 | "Track TRK123456" reports In Transit, New York, Los Angeles, Chicago, the session's delivery date, 5.2 kg, 30x20x15 cm, Priority, 245.5, signature "Yes" and Front Porch, with no weather alert at 68 degrees; the analytics it computes count two stops, and the distance, time and efficiency it shows lie in 800-1200, 24-72 and 85-98 |
| Scenarios.TrackLowerCaseNumber | streamlit_app.py:145-152 | "track trk123456" reports the record of `TRK123456`, the same reply as "Track TRK123456" |
| Scenarios.TrackUnknownNumber | streamlit_app.py:205-206 | "status TRK999999" is answered with "not found" |
| Scenarios.TrackWithoutNumber | streamlit_app.py:207-208 | "track it" is answered with the format prompt |
| Scenarios.GreetHello | streamlit_app.py:220-221 | "Hello" and "HELLO" are greeted |
| Scenarios.GreetWhich | streamlit_app.py:220-221 | "Which one?" is greeted, because "which" contains "hi" |
| Scenarios.WeatherBeatsAnalytics | streamlit_app.py:213-217 | "weather analytics", in any case, gets the weather reply |
| Scenarios.ChicagoAlerts | streamlit_app.py:134-141 | Chicago at 90 degrees gets a heat alert, at 20 a freeze alert, at 68 none |
| Scenarios.SendThenClear | streamlit_app.py:249-253 | sending "hi" to a fresh session appends the message and its reply; clearing then gives back the fresh session |

## Left out

- Rendering and widgets are not modelled: `st.write`, `st.metric`, `st.warning`, the chat display loop, the sidebar list of numbers, and `st.experimental_rerun`. Only the values computed for them are modelled: the reply, the alerts and the analytics.
- `create_route_map` and `create_delivery_timeline` are not modelled. They pass the record to folium and plotly/pandas, which are not part of this model.
- The model assumes every library call on the stored-number path (lines 156-184) returns normally. Line 125 calls `px.timeline` with `x_start` but no `x_end`; if plotly raises there, the summary is never returned, the user turn appended at line 251 stays in the log, and line 253 never appends a reply. That failure path is not modelled, because plotly is not part of this model.
- The sidebar quick-action buttons (lines 273-283) are not modelled. Each appends a lone bot turn with no user message before it, so a log that includes them is not a list of message/reply pairs. The pairing lemmas cover only logs reached by Send and Clear.
- The notification multiselect (lines 285-290) is not modelled. It only changes widget state and does not touch the log or the reply.
- A logged bot turn keeps the whole reply value, alerts and analytics included. The program's chat log keeps only the reply string (line 253); the alerts (line 184) and the metrics (lines 173-177) are shown once, during that run, and are not stored.
- `stopsMade` and `fuelUsage` are computed and carried by `Tracked`, but the reply never shows them. Lines 173-177 display only distance, time and efficiency.
- The estimated delivery date is computed from the clock when the session starts. It is a string parameter of the initial store.
- `random.uniform` is modelled as `lo + (hi - lo) * u`, and the sample `u` in [0, 1) is a parameter. Floating-point rounding is not modelled; every number is an exact real.
- Case folding and `\d` cover ASCII only. Python's Unicode rules for `lower()`, `upper()` and `\d` are not modelled.
- Replies are constructors that carry the reported fields. The exact text, whitespace and emoji of the reply strings are not modelled.
- An empty update list is excluded by the `UpdateLog` type. The code reads `updates[-1]` (line 180) and would fail on such a record. The only record in the store has two updates.
- Temperatures are integers, as in the stored record. A non-integer temperature is not modelled.
