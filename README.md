# Hospital support agents, modelled in Dafny

This project models the deterministic core of a hospital assistant built from LLM agents.
A primary assistant hands the conversation over to one of four specialists: appointments, AI
doctor, directions and parking. A dialog stack remembers which specialist is active, and tool
calls that change bookings are suspended until the user confirms them. Around this graph sit:

- the tools the specialists call (appointments, parking, recommendations, routes);
- a research graph that strips model output and loops over web searches;
- a triage step that assembles a crew of medical specialists;
- a browser-agent front end;
- the console and web front ends that print or collect the streamed events.

The model keeps the code's branches, messages and edge cases. The language model, the
database, the map and search services, and the clock and uuid generator become parameters.
Database tables are sequences of rows, and a commit returns the new table.

Modules, one per source file, plus two shared ones:

| module | source |
|---|---|
| `Common`, `PyStrings` | Python's `str(n)`, `find`, `split`, `join`, `replace`, `strip`, `lower`, and slicing |
| `Dialog` | hospital_support_graph.py: messages, the dialog stack, routers, entry and leave nodes, the tool-error fallback, the agent's retry loop |
| `DialogWiring` | hospital_support_graph.py: the graph builder, its edges, the interrupt list, one-step execution and the conversation invariant |
| `Appointments` | appointment_tools.py |
| `Parking` | parking_tools.py |
| `AiDoctor` | ai_doctor_tools.py |
| `DeepSearch` | deep_search/graph.py |
| `MultiAgent` | multiagent.py |
| `Browser` | browser.py |
| `MapTools` | map_tools.py |
| `Console` | run.py |
| `ChatServer` | run_server.py |

Times are integer minutes in `Appointments` and `Parking`, and integer seconds in `MapTools`.
Weekdays are computed from the day number, since day 0 (1970-01-01) was a Thursday.

Facts about the code that the model records:

- The agent's retry loop has no bound in the code. The model gives it a fuel bound, and `None` stands for "no answer within the bound".
- A rejected confirmation is sent as a new user message, so the graph restarts at START. It does not loop back into the specialist directly.
- Only the two sensitive tool nodes that exist are gated: appointments and parking. The AI doctor and direction specialists have no sensitive node.
- The agent's `user_info` is read from `passenger_id`, but callers configure `patient_id`.
- In the `<think>` loop, when a `</think>` comes first, each pass makes the text longer by the gap between the two tags. When the tags touch, it stays the same length. The loop never ends in either case.

## Model

| member | source | states |
|---|---|---|
| Dialog.UpdateDialogStack | hospital_support_graph.py:89-95 | no update keeps the stack; "pop" removes exactly the top (an empty stack stays empty); any other value is pushed on top |
| Dialog.PushPop | hospital_support_graph.py:89-95 | a pop right after a push restores the stack |
| Dialog.RouteToWorkflow | hospital_support_graph.py:571-582 | a missing or empty stack resumes the primary assistant, otherwise the agent on top of the stack; the messages are not consulted |
| Dialog.ResumeAfterEnterAndLeave | hospital_support_graph.py:571-582 | after entering a specialist the next message resumes it; after leaving, the primary assistant |
| Dialog.PushedNamesAreAgentNodes | hospital_support_graph.py:377-381 | each pushed dialog state names its specialist's agent node |
| Dialog.SafeSensitiveDisjoint | hospital_support_graph.py:204-206 | the safe and sensitive tool names of appointments and of parking are disjoint |
| Dialog.RouteAppointment | hospital_support_graph.py:392-404 | no tool calls end the turn; any CompleteOrEscalate call leaves the skill; an all-safe batch goes to the safe tools, anything else to the sensitive tools |
| Dialog.RouteAiDoctor | hospital_support_graph.py:426-435 | END without tool calls, leave_skill on escalation, otherwise the safe tool node |
| Dialog.RouteDirection | hospital_support_graph.py:456-465 | END without tool calls, leave_skill on escalation, otherwise direction_tools |
| Dialog.RouteParking | hospital_support_graph.py:490-502 | the same decision as the appointment router, over the parking tool lists |
| Dialog.EscalationWins | hospital_support_graph.py:398-400 | an escalation call anywhere in the batch sends every specialist to leave_skill |
| Dialog.MixedBatchIsSensitive | hospital_support_graph.py:401-404 | a batch mixing a safe and a sensitive appointment call goes to the sensitive tools |
| Dialog.SpecialistRoutesStayOwn | hospital_support_graph.py:392-502 | a specialist router returns only that specialist's tool nodes, leave_skill or END |
| Dialog.RoutePrimary | hospital_support_graph.py:538-554 | END without tool calls; the first call's transfer name picks the entry node; any other first name goes to primary_assistant_tools |
| Dialog.PrimaryReadsFirstCallOnly | hospital_support_graph.py:543-553 | two replies with the same first tool call are routed alike |
| Dialog.PrimaryEscalationGoesToTools | hospital_support_graph.py:341-343 | a CompleteOrEscalate call from the primary assistant is sent to its tool node |
| Dialog.EntryNode | hospital_support_graph.py:347-364 | exactly one tool message, answering the first tool call's id, and a push of the new state |
| Dialog.PopDialogState | hospital_support_graph.py:513-526 | always a pop; one tool message answering the first call's id when the last message has tool calls, none otherwise |
| Dialog.HandleToolError | hospital_support_graph.py:69-80 | one error message per tool call of the failed batch, carrying the calls' ids in order |
| Dialog.UserInfo | hospital_support_graph.py:147-149 | the user information is present exactly when `passenger_id` is configured, and is then that configured value |
| Dialog.UserInfoMissesPatientId | hospital_support_graph.py:147-149 | with the keys the callers configure, the user information is always missing |
| Dialog.Repeat | hospital_support_graph.py:158 | k copies of the retry prompt |
| Dialog.CallAssistant | hospital_support_graph.py:145-162 | the reply returned is the first one that is not empty; call k sees k retry prompts appended; every earlier call was empty; None only when the fuel ran out |
| DialogWiring.GraphBuilder.constructor | hospital_support_graph.py:367 | an empty builder |
| DialogWiring.GraphBuilder.AddNode | hospital_support_graph.py:373 | adds one node and changes nothing else |
| DialogWiring.GraphBuilder.AddEdge | hospital_support_graph.py:374 | adds one fixed edge and changes nothing else |
| DialogWiring.GraphBuilder.AddConditionalEdges | hospital_support_graph.py:408-412 | records the targets of a router and changes nothing else |
| DialogWiring.AddAppointmentWorkflow | hospital_support_graph.py:377-412 | adds the appointment nodes, their edges and their router |
| DialogWiring.AddAiDoctorWorkflow | hospital_support_graph.py:415-442 | adds the AI doctor nodes, their edges and their router |
| DialogWiring.AddDirectionWorkflow | hospital_support_graph.py:445-472 | adds the direction nodes, their edges and their router |
| DialogWiring.AddParkingWorkflow | hospital_support_graph.py:475-510 | adds the parking nodes, their edges and their router |
| DialogWiring.AddPrimaryWorkflow | hospital_support_graph.py:528-568 | adds leave_skill, the primary assistant, its tools and its router |
| DialogWiring.BuildHospitalGraph | hospital_support_graph.py:367-584 | the builder ends with exactly the declared nodes, fixed edges and routers |
| DialogWiring.StaticNextIsEdges | hospital_support_graph.py:367-584 | the next node of a node without a router is exactly its fixed edge |
| DialogWiring.BranchesAreRouters | hospital_support_graph.py:408-584 | the nodes with a router are exactly those with conditional edges |
| DialogWiring.OneKindOfExit | hospital_support_graph.py:367-584 | every node leaves either by a router or by one fixed edge, never both |
| DialogWiring.EdgesClosed | hospital_support_graph.py:367-584 | fixed edges connect nodes of the graph |
| DialogWiring.BranchesClosed | hospital_support_graph.py:408-594 | routed targets are graph nodes or END, and both gated nodes are graph nodes |
| DialogWiring.EntryOnlyFromPrimary | hospital_support_graph.py:556-567 | an entry node is a target only of the primary assistant's router |
| DialogWiring.ToolNodesLoopBack | hospital_support_graph.py:406-407 | each tool node returns to the agent that asked for the tools, and has no router |
| DialogWiring.NextFollowsWiring | hospital_support_graph.py:392-584 | every router's result is one of the targets its conditional edge declares |
| DialogWiring.InitInv | hospital_support_graph.py:374 | a new conversation satisfies the graph invariant |
| DialogWiring.StepKeepsInv | hospital_support_graph.py:367-594 | every step keeps the invariant: stack depth at most 1, the primary side only with an empty stack, suspension only before a gated node |
| DialogWiring.RunKeepsInv | hospital_support_graph.py:367-594 | any run of steps keeps the invariant |
| DialogWiring.ConversationInvariants | hospital_support_graph.py:588-594 | in every run the stack holds at most one state, the primary assistant sees an empty stack, and only the two sensitive tool nodes suspend |
| DialogWiring.EntryAndLeaveProceed | hospital_support_graph.py:347-364 | in a reachable checkpoint the entry and leave nodes find the message they read |
| DialogWiring.MixedAppointmentBatchSuspends | hospital_support_graph.py:401-404 | a mixed appointment batch suspends before the sensitive tools |
| DialogWiring.UngatedSpecialistsNeverSuspend | hospital_support_graph.py:426-472 | the AI doctor and direction agents never lead to a suspension |
| DialogWiring.SuspendedChoices | hospital_support_graph.py:588-594 | resuming a suspended run runs exactly the gated node; a new user message restarts at START instead |
| Appointments.DayName | appointment_tools.py:53 | the weekday name is one of the seven English names |
| Appointments.EpochWasThursday | appointment_tools.py:53 | day 0 is a Thursday and day 4 a Monday |
| Appointments.FindDoctor | appointment_tools.py:41-48 | the doctor row with the id, or none exactly when no row has it |
| Appointments.CountIf | appointment_tools.py:66-73 | the count is zero exactly when no row matches |
| Appointments.ValidateAppointmentTime | appointment_tools.py:34-90 | the checks run in order (doctor, weekday, working hours inclusive at both ends, daily maximum, overlap) and the first failure names the problem; valid exactly when all pass |
| Appointments.ValidTimeIsFree | appointment_tools.py:77-90 | a valid time overlaps no scheduled appointment of that doctor and lies in the working hours |
| Appointments.Booked | appointment_tools.py:127-136 | the intervals are exactly the doctor's scheduled appointments on that day |
| Appointments.FreeSlotsWellFormed | appointment_tools.py:139-158 | each slot lasts 30 minutes on the grid from the day start, ends by the day end and overlaps no booking |
| Appointments.FreeSlotsAscending | appointment_tools.py:139-158 | slots are in ascending order and do not overlap each other |
| Appointments.FreeSlotsComplete | appointment_tools.py:142-156 | every free 30-minute window on the grid that fits in the day is offered |
| Appointments.GetAvailableSlots | appointment_tools.py:96-160 | an unknown doctor or a day off gives no slots; missing working hours raise; otherwise the free windows of the working day |
| Appointments.GenerateSlots | appointment_tools.py:139-158 | the loop's slots are the free windows of the day |
| Appointments.OfferedSlotsAvoidBookings | appointment_tools.py:146-156 | no offered slot overlaps a scheduled appointment of that doctor that day, under the half-open test |
| Appointments.OffersFor | appointment_tools.py:356-365 | one offer per slot, in slot order, with the doctor's data |
| Appointments.SearchWindow | appointment_tools.py:349-350 | the window runs from the start date or now to the end date or seven days later |
| Appointments.ScanDoctor | appointment_tools.py:354-366 | the day loop returns the offers of every day in the window, and the cursor ends past the window |
| Appointments.SearchAvailableAppointments | appointment_tools.py:349-368 | the result is the first doctor's offers only: the shared cursor passes the window once |
| Appointments.ScanDaysOneDoctor | appointment_tools.py:352-366 | every offer of the search belongs to the first doctor listed |
| Appointments.SearchSkipsLaterDoctors | appointment_tools.py:349-366 | a second doctor with free slots is never offered, while the per-doctor search offers them |
| Appointments.ScanAllDoctors | appointment_tools.py:349-366 | the intended search, each doctor scanned over the whole window: it fails exactly when one doctor's scan fails, and every offer comes from some doctor's scan |
| Appointments.ScanAllDoctorsIncludesEach | appointment_tools.py:352-366 | the per-doctor search returns each doctor's own offers |
| Appointments.FindFirst | appointment_tools.py:540-541 | the first matching row, or none exactly when no row matches |
| Appointments.FindFirstAgrees | appointment_tools.py:540-541 | tables that agree on the predicate row by row have the same first match |
| Appointments.BookAppointment | appointment_tools.py:374-421 | a missing patient raises; a failed validation returns "Cannot book appointment: " plus its message with the table unchanged; otherwise one row is appended, 30 minutes long, in the doctor's department, with the given appointment type and symptoms, no cancel reason and the status column's default, and the id is reported |
| Appointments.NextAppointmentId | appointment_tools.py:418 | the id the insert reports, above every id in the table |
| Appointments.BookedIdIsFresh | appointment_tools.py:408-421 | a booking given the next row id stores a row whose id no earlier appointment has |
| Appointments.BookingTakesSlot | appointment_tools.py:394-421 | when the status column defaults to 'scheduled', after a booking the same doctor and time no longer validate |
| Appointments.RewriteOwned | appointment_tools.py:476-503 | the update rewrites only the row with that id owned by the patient |
| Appointments.Reschedule | appointment_tools.py:430-507 | a missing patient raises; a row not found, not scheduled, an invalid new time, or no change requested each give their message with the table unchanged; a scheduled owned row with a valid change is updated, unless the new doctor is unknown ("Invalid doctor ID"); success always means the owned row was rewritten |
| Appointments.UpdateMovesOwnedRow | appointment_tools.py:476-507 | after a successful update the owned row has the new time and doctor (or keeps its own), is still scheduled, and every other row is unchanged |
| Appointments.RescheduleValidated | appointment_tools.py:464-474 | an update that succeeds with a new time found the row and passed the validation against the table it consulted |
| Appointments.UpdateAppointment | appointment_tools.py:430-507 | `update_appointment` as written, validated against the whole table: an accepted new time is clear of every scheduled row of the checked doctor, the moved row included |
| Appointments.UpdateAppointmentIntended | appointment_tools.py:430-507 | validated against the table without the moved row: an accepted new time is clear of every other scheduled row of the checked doctor, and without a new time it decides exactly as the tool does |
| Appointments.Without | appointment_tools.py:464-474 | the rows other than the one with the id |
| Appointments.UpdateRejectsSmallShift | appointment_tools.py:464-474 | moving a lone appointment by 15 minutes is refused as already booked |
| Appointments.ShiftClashesWithItself | appointment_tools.py:77-88 | the moved row itself blocks the new time |
| Appointments.ShiftRowFound | appointment_tools.py:448-470 | the example row is found as owned and by id |
| Appointments.IntendedUpdateMoves | appointment_tools.py:464-507 | with the row itself left out of validation, a move succeeds whenever no other row blocks it |
| Appointments.CancelAppointment | appointment_tools.py:516-564 | a missing patient raises; not owned, not scheduled, and under 24 hours before the start each give their message with the table unchanged; otherwise only the owned row becomes cancelled with the reason |
| Appointments.CancelOwned | appointment_tools.py:555-561 | only the rows with that id owned by the patient change, to cancelled with the reason |
| Appointments.CancelTwice | appointment_tools.py:546-547 | a cancelled appointment cannot be cancelled again |
| Appointments.SubmitDoctorReview | appointment_tools.py:659-697 | a missing patient raises; a rating outside 1..5 is refused before any table is read; without a completed visit it is refused; otherwise the review is appended |
| Appointments.SubmitKeepsReviewsBacked | appointment_tools.py:680-697 | every stored review stays backed by a completed visit |
| Parking.Selected | parking_tools.py:65-67 | without a type all rows are kept; with one only rows of that type |
| Parking.SelectedKeepsMatches | parking_tools.py:65-67 | every row of the asked-for type is kept, and nothing is invented |
| Parking.Areas | parking_tools.py:81-98 | one area entry per row, in row order |
| Parking.GetParkingAvailability | parking_tools.py:31-102 | None (the division by zero) exactly when a selected area has no spaces; otherwise the entries of the selected rows and the sums of their available spaces and capacities |
| Parking.Tally | parking_tools.py:81-100 | the loop fails exactly on an area without spaces; otherwise its entries and totals are those of the rows |
| Parking.TotalAvailableOfRows | parking_tools.py:85-99 | the total available is the rows' available spots minus their reserved spots |
| Parking.TotalCapacityOfRows | parking_tools.py:100 | the total capacity is the sum of the rows' spaces |
| Parking.OverbookedAreaIsNegative | parking_tools.py:85 | nothing clamps the difference, so an overbooked area reports negative availability |
| Parking.FacilityRate | parking_tools.py:128-130 | the hourly rate of the area's facility, or none exactly when it has none |
| Parking.FirstFreeSpot | parking_tools.py:127-141 | the first offerable spot in table order, or none exactly when no spot is offerable |
| Parking.NextId | parking_tools.py:156 | the new id is positive and larger than every existing id |
| Parking.QrCode | parking_tools.py:159 | the code starts with "PARKING-" and ends with "-" and the spot number |
| Parking.QrCodeIdentifiesReservation | parking_tools.py:159 | for one spot, different reservation ids give different codes |
| Parking.NavigationOf | parking_tools.py:176-183 | the level is the spot number's first character and the zone its second, each empty when missing; the second and third directions name that level and that zone |
| Parking.Instructions | parking_tools.py:168-175 | six lines in order: the spot, the 30-minute arrival window, the QR scan, park only in the assigned spot, the duration, the extensions phone line |
| Parking.ReserveParkingSpot | parking_tools.py:108-185 | a missing patient raises; no spot gives the error with no insert; otherwise one row is appended at cost rate times hours, and the confirmation carries its id, spot, arrival time, duration, cost, QR code, instructions and navigation |
| Parking.ReservationIdIsFresh | parking_tools.py:156 | the new reservation id differs from every existing one |
| Parking.ReservedSpotIsTaken | parking_tools.py:127-154 | once reserved, the same spot is not offered for the same arrival |
| Parking.FindReservation | parking_tools.py:211-217 | the first row with that id and owner, or none exactly when there is none |
| Parking.CancelRows | parking_tools.py:229-234 | only the rows with that id change, to cancelled |
| Parking.CancelParkingReservation | parking_tools.py:194-242 | a missing patient raises; then not found, then under two hours away, then a status other than confirmed; otherwise the row is cancelled and its stored cost refunded |
| Parking.FindSurvivesCancel | parking_tools.py:229-234 | cancelling leaves every lookup result as it was |
| Parking.CancelTwice | parking_tools.py:225-226 | a cancelled reservation cannot be cancelled again |
| Parking.RefundIsReservedCost | parking_tools.py:146-242 | reserving and then cancelling in time refunds exactly rate times hours |
| AiDoctor.GenerateMedicalRecommendations | ai_doctor_tools.py:128-150 | "high" gives the three urgent lines, "medium" the three consult lines, anything else the two self-care lines, after lower-casing |
| AiDoctor.ListRevealsSeverity | ai_doctor_tools.py:133-149 | the three lists differ, so the advice tells which severity was read |
| AiDoctor.MissingSeverityIsSelfCare | ai_doctor_tools.py:130 | a missing severity reads as "" and gets the self-care lines |
| AiDoctor.CaseDoesNotMatter | ai_doctor_tools.py:130 | severities equal up to letter case get the same advice |
| AiDoctor.UpperCaseHighIsUrgent | ai_doctor_tools.py:130-138 | "HIGH" gets the urgent lines |
| DeepSearch.StripFence | deep_search/graph.py:33-39 | unfenced text is only trimmed; a fenced text without a newline fails like the index error |
| DeepSearch.JsonFenceUnwraps | deep_search/graph.py:34-39 | a reply fenced as json on its own line gives back exactly the lines in between |
| DeepSearch.TaggedFenceUnwraps | deep_search/graph.py:34-39 | a reply fenced by ``` lines, whatever tag the opening line carries, gives back exactly the lines in between |
| DeepSearch.PlainFenceUnwraps | deep_search/graph.py:34-39 | a reply fenced by bare ``` lines, with no json tag, gives back exactly the lines in between |
| DeepSearch.GenerateQuery | deep_search/graph.py:31-50 | the decoded `query`, or the research topic when unwrapping, decoding or the key fails |
| DeepSearch.OneLineFenceFallsBack | deep_search/graph.py:36 | a fenced reply without a newline falls back to the topic |
| DeepSearch.EmptyQueryIsKept | deep_search/graph.py:44 | an empty `query` is searched as it is |
| DeepSearch.ReflectOnSummary | deep_search/graph.py:130-156 | a non-empty `follow_up_query`, or "Tell me more about " plus the topic on any failure |
| DeepSearch.FollowUpNeverEmpty | deep_search/graph.py:144-156 | the follow-up query is never empty |
| DeepSearch.WebResearch | deep_search/graph.py:52-76 | Tavily or Perplexity (told the loop count) results, the count raised by exactly one; any other API raises |
| DeepSearch.RouteResearch | deep_search/graph.py:166-173 | another search exactly while the count is at most the maximum |
| DeepSearch.SearchesFromCount | deep_search/graph.py:166-189 | from count c the graph searches max − c + 1 times (at least once) |
| DeepSearch.SearchesOneMoreThanMax | deep_search/graph.py:166-189 | from a fresh state the graph searches max + 1 times |
| DeepSearch.ThinkStep | deep_search/graph.py:113-115 | when the first `<think>` precedes the first `</think>`, a pass shortens the text |
| DeepSearch.ThinkStepRemovesBlock | deep_search/graph.py:110-115 | a single well-formed `<think>…</think>` block with no '<' before its end is found, its open tag comes first, and one pass cuts exactly that block |
| DeepSearch.OneBlockOnePass | deep_search/graph.py:110-115 | in text with no other '<', any number of passes from one on leaves the text without the block, and the loop condition then fails |
| DeepSearch.CloseFirstStays | deep_search/graph.py:112-115 | when the first `</think>` comes first, it still does after a pass |
| DeepSearch.CloseFirstGrows | deep_search/graph.py:112-115 | in that case the text grows by the gap between the two tags |
| DeepSearch.CloseFirstNeverEnds | deep_search/graph.py:112-115 | in that case no number of passes leaves the loop |
| DeepSearch.StripThinkTags | deep_search/graph.py:112-115 | the loop stops early exactly when a tag is missing; a text whose `</think>` comes first uses up any fuel; with OneBlockOnePass, a single well-formed block is removed in one pass |
| DeepSearch.FinalSummary | deep_search/graph.py:162-163 | the text begins with the summary heading and the summary |
| DeepSearch.FinalSummaryKeepsSources | deep_search/graph.py:162-163 | what follows the heading is exactly the sources joined by newlines; when no source has a newline, splitting gives them back |
| DeepSearch.ResearchState.constructor | deep_search/graph.py:158 | a state holding the running summary and sources |
| DeepSearch.ResearchState.FinalizeSummary | deep_search/graph.py:158-164 | the running summary becomes the final text; the sources stay |
| MultiAgent.SpecialistAgent | multiagent.py:114-124 | only the chief medical officer may delegate |
| MultiAgent.ParseTriage | multiagent.py:166-167 | one key per comma-separated piece, with no whitespace left at either end |
| MultiAgent.ParseTriageCommaOnly | multiagent.py:166-167 | an answer in the prompt's form "a,b,c" (keys without commas or outer blanks) parses back to exactly those keys |
| MultiAgent.ParseTriageRoundTrip | multiagent.py:166-167 | an answer listing keys as "a, b, c" (keys without commas or outer blanks) parses back to exactly those keys |
| MultiAgent.Selected | multiagent.py:170-171 | each known key once, exactly the parsed keys that are specialists |
| MultiAgent.SelectedKeepsFirstMentionOrder | multiagent.py:170-171 | selected keys keep the order of their first mention |
| MultiAgent.SpecialistTasks | multiagent.py:172-202 | one evaluation per selected specialist in order, then the synthesis by the chief medical officer |
| MultiAgent.CrewAgents | multiagent.py:206 | the selected agents, then the chief medical officer |
| MultiAgent.PlanDiagnosis | multiagent.py:165-207 | the crew and tasks handed over for a triage answer |
| MultiAgent.OnlyCmoDelegates | multiagent.py:114-124 | exactly the chief medical officer's entries may delegate |
| MultiAgent.CmoNamedTwice | multiagent.py:170-206 | naming the chief medical officer in the triage answer puts it in the crew twice |
| Browser.SectionContent | browser.py:45-47 | "" without the marker; otherwise the printed text has no single quote at either end |
| Browser.SectionContentOf | browser.py:45-47 | for every section: the comma-free text right after the first `extracted_content=`, up to the next comma, is printed with single quotes stripped |
| Browser.SectionContentAtEnd | browser.py:45-47 | with no comma after the marker, the whole rest of the section is printed, single quotes stripped |
| Browser.Contents | browser.py:43-47 | the content of each section, in order |
| Browser.NumberContents | browser.py:43-53 | the loop's panels are those of the numbered sections |
| Browser.ParseAgentHistory | browser.py:37-53 | the text before the first `ActionResult(` is skipped and the sections after it are numbered from 1 |
| Browser.PanelsShowTheirSection | browser.py:49-52 | each panel shows the non-empty content of the section its number names |
| Browser.PanelsIncrease | browser.py:43 | panel numbers increase |
| Browser.PanelsCoverSections | browser.py:43-52 | every section with content gets its panel; an empty one still uses its number |
| Browser.NoResultsNoPanels | browser.py:41-43 | a history without `ActionResult(` splits into one section and yields no panel at all |
| Browser.KindOf | browser.py:64-71 | ".pdf" first, then ".doc" or ".docx", then text |
| Browser.DocxIsWord | browser.py:68 | a ".docx" upload goes to the Word reader |
| Browser.ReadFileContent | browser.py:56-75 | "" without a file; the pages' texts concatenated (missing ones as ""), the paragraphs joined by newlines, or the text read |
| Browser.TaskWithFile | browser.py:115-117 | the text is the file heading, then exactly the file's content, then the task heading and the task |
| Browser.ChooseClient | browser.py:85-104 | the error names the key of the chosen provider; a DeepSeek client only for a "deepseek" model name; the OpenAI client keeps the model; a client gets the chosen key unchanged |
| Browser.BlankKeyIsMissing | browser.py:85-104 | for every key: the agent is never started exactly when the chosen key is empty or all whitespace |
| Browser.DeepSeekInAnyCase | browser.py:85 | the DeepSeek side is chosen exactly when eight consecutive characters of the model name read "deepseek" in any letter case |
| Browser.FirstContent | browser.py:136-139 | the first truthy content among one step's results |
| Browser.NewestContentNone | browser.py:132-144 | no result exactly when no step has content |
| Browser.NewestContentIsNewest | browser.py:134-141 | otherwise the first content of a step after which no step has any |
| Browser.ExtractFinalResult | browser.py:132-146 | the newest step's first content, or the default text when there is none |
| MapTools.CleanLeavesPlainText | map_tools.py:78-80 | a step with none of the four tokens is unchanged |
| MapTools.CleanLeavesTextWithoutTags | map_tools.py:78-80 | a step without '<' is unchanged |
| MapTools.CleanUnwrapsBold | map_tools.py:78 | a bold step without further tags loses its bold tags |
| MapTools.CleanSteps | map_tools.py:74-81 | one cleaned step per step, in order |
| MapTools.RouteOf | map_tools.py:93-101 | the route keeps the mode, distance, traffic duration in seconds, and the cleaned steps |
| MapTools.RouteTimesFit | map_tools.py:84-91 | with an arrival time the departure is that much earlier; without one it departs now and arrives that much later |
| MapTools.RouteMinutesRoundDown | map_tools.py:95 | the minutes are the seconds divided by 60, rounded down |
| MapTools.GetRouteToHospital | map_tools.py:52-112 | no directions give the error; a direction without legs fails like the index error; otherwise one route per direction from its first leg, with the traffic report exactly in driving mode |
| MapTools.ChosenDuration | map_tools.py:149 | the traffic duration when present, else the base duration |
| MapTools.GetEstimatedArrivalTime | map_tools.py:133-162 | no directions or no legs give their errors; the departure defaults to now |
| MapTools.EstimateFollowsTraffic | map_tools.py:148-158 | arrival is departure plus the chosen duration, and traffic is heavy exactly when the traffic duration is longer than the base duration |
| MapTools.NoTrafficDataIsNormal | map_tools.py:148-158 | without traffic data the label is "Normal" |
| MapTools.EstimateIgnoresAlternatives | map_tools.py:148 | only the first direction is read |
| Console.Truncate | run.py:16-19 | a text over the limit keeps its first max_length characters plus the mark; a shorter one is unchanged |
| Console.Considered | run.py:11-14 | the last message of a list, or the single message; none when there is no message |
| Console.Printer.constructor | run.py:37 | nothing printed and nothing remembered |
| Console.Printer.PrintEvent | run.py:5-21 | the printout grows by the event's lines and its message id is remembered |
| Console.Printer.PrintNext | run.py:68-69 | printing the next event extends the replay by one event |
| Console.Printer.PrintEvents | run.py:68-69 | the printout is the replay of the events, falsy ones skipped |
| Console.PrintedOnce | run.py:15-21 | the same event printed again prints only its state |
| Console.NewMessageIsShown | run.py:15-21 | a new message is printed, truncated to the limit, and remembered |
| Console.OnlyLastOfList | run.py:13-14 | earlier messages of a list are never printed |
| Console.NoneIdPrintedOnce | run.py:15-21 | after a message whose id is None, no later message with a None id is printed |
| Console.ReplayOnlyGrows | run.py:20-21 | the remembered ids are the starting ones plus those printed |
| Console.Decide | run.py:76-101 | an input error resumes; a stripped reply that is "y" in any case resumes; any other reply rejects with the reason quoted |
| Console.CapitalYConfirms | run.py:83 | a capital "Y" confirms |
| Console.ConfirmsIffLowerY | run.py:79-83 | a reply confirms exactly when, stripped and lower-cased, it is "y" |
| Console.OtherRepliesReject | run.py:89-96 | any other reply rejects, and the message quotes it without its blanks |
| Console.ConfirmationLoop | run.py:75-108 | one decision per round while the graph waits; results printed as the replay of those rounds |
| ChatServer.ResolveSession | run_server.py:76-101 | a falsy or 'null' id gets a fresh session; an unknown id a new one under that id; a known one is kept |
| ChatServer.CreatedSessionIsFresh | run_server.py:79-101 | a created session has its thread named after it and nothing answered; no other session changes |
| ChatServer.Entries | run_server.py:130-143 | one entry per tool call in call order with the content, or the content itself |
| ChatServer.CollectRecordsIds | run_server.py:145-147 | the answered ids only grow, and every truthy id seen is answered |
| ChatServer.AnsweredAddNothing | run_server.py:125-127 | messages whose ids were all answered add nothing |
| ChatServer.SecondStreamIsSilent | run_server.py:114-147 | streaming the same messages with ids again answers nothing |
| ChatServer.Server.constructor | run_server.py:73 | no sessions |
| ChatServer.Server.Chat | run_server.py:73-152 | the session is resolved first; an empty message then gives the error; otherwise the responses are collected and the session's answered ids updated |
| ChatServer.CollectResponses | run_server.py:114-147 | the nested loop's responses and ids are those of the stream, message by message |
| ChatServer.AppendEntries | run_server.py:133-143 | the message's entries appended |
| Common.NatToString | appointment_tools.py:421 | the decimal digits of a number, at least one |
| Common.NatToStringRoundTrip | parking_tools.py:159 | reading the digits back gives the number |
| PyStrings.SplitOn | multiagent.py:167 | the pieces between occurrences of the separator; more than one exactly when it occurs |
| PyStrings.SplitJoinRoundTrip | deep_search/graph.py:162 | splitting a join on the same character gives the parts back |
| PyStrings.TrimBlank | browser.py:87 | `s.strip()` is empty exactly when every character of `s` is whitespace |

## Left out

- Database access (connect, execute, fetch, commit, rollback) is not modelled: query results are parameters and a commit is a returned table. The `except` branches that only report a database failure are left out.
- The language models, prompt texts, `json.loads`, the map, search and browser services, the PDF and Word readers and `os.getenv` are parameters (functions or values).
- LangGraph internals are modelled only by their visible contract: `tools_condition`, tool nodes, the checkpoint memory, and interrupt and resume.
- `datetime.now`, the uuid generator and all `strftime`/`strptime` formatting are left out. Times are integers and the current time is a parameter.
- Floating point is left out: the occupancy percentage, distances in kilometres (kept in metres), and the expense sums. Money is an integer.
- `Appointments.BookAppointment`: the "Doctor not found." branch after a successful validation cannot be reached, and its contract says nothing about it.
- The `fetch_user_info` node's patient lookup (`fetch_patient_info`, which reads the database and raises without a configured `patient_id`) is not modelled: the node only passes on to the workflow router, because `Assistant.__call__` overwrites `user_info` with the `passenger_id` value before any agent reads it.
- BookAppointment: the insert does not set `status`, and the table schema is not part of this model, so the column default is a parameter; BookingTakesSlot assumes it is 'scheduled'.
- `MapTools.GetRouteToHospital`: a leg's traffic duration is an `Option`. A traffic entry without a `value` is not modelled.
- `Dialog.CallAssistant`: the loop has no bound in the source; the model stops after `fuel` calls.
- `DeepSearch.StripThinkTags`: the loop may never end in the source; the model stops after `fuel` passes.
- `Console.ConfirmationLoop`: the replies bound the number of rounds.
- `Console` and `Browser` do not model printing itself; what would be printed is returned as lines or panels.
- Parking.FirstFreeSpot: the spot query ends in `LIMIT 1` without `ORDER BY`, so SQL leaves open which free spot is returned; the model picks the first offerable spot in table order.
- `run_browser_task`'s `except Exception` branch (`'Error: ' + str(e)`) is not modelled: the agent, the readers and the clients it would catch failures of are parameters.
- The interactive loop of `main` in run.py is not modelled, and neither is the `input` prompt loop in deep_search/run_research.py (the quit, exit and empty-question handling).
- The other Flask routes in run_server.py are not modelled: image analysis, diagnosis, browser task, deep search.
- `ChatServer.Server.Chat` does not model a missing `message` of `None`, non-string session ids, or the error reply of its `except` branch.
- Python's `strip()` and `lower()` are modelled on ASCII whitespace and letters only.
- static/js/main.js, gradio's `create_ui`, deep_search/env.py and deep_search/llm.py are not part of this model.
- The `search_departments`, `search_doctors`, `get_upcoming_appointments`, `search_medical_records` and `get_medical_expenses` tools are not modelled. Neither are `symptom_analysis` and `get_patient_medical_history`. They only run a query and format its rows.
- `Parking.GetParkingAvailability`: the SQL join's fan-out of spot and reservation counts is not modelled; its per-area counts are inputs.

## Findings

| source | as written | input that shows it | evidently intended | confidence | as-written member | corrected member |
|---|---|---|---|---|---|---|
| appointment_tools.py:349-366 | `current_date` is set once before the loop over doctors and never reset, so the day loop runs only for the first doctor | two doctors with free slots in the window: only the first doctor's slots are returned | every doctor's days scanned from the start of the window | not executed | Appointments.SearchAvailableAppointments, Appointments.SearchSkipsLaterDoctors | Appointments.ScanAllDoctors, Appointments.ScanAllDoctorsIncludesEach |
| appointment_tools.py:464-474 | a new time is validated against all scheduled rows, including the appointment being moved | the only appointment of a doctor, 10:00-10:30, moved to 10:15: "Invalid new appointment time: Time slot is already booked" | the moved appointment left out of the clash and daily counts | not executed | Appointments.UpdateAppointment, Appointments.UpdateRejectsSmallShift | Appointments.UpdateAppointmentIntended, Appointments.IntendedUpdateMoves |
