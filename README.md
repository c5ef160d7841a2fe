# Social service client, modelled in Dafny

This project models the client library of the Smart Campus community manager
(`eu.trentorise.smartcampus.socialservice`). It covers four layers.

- **Hand-written JSON encoders** (`toJson` of `ShareVisibility`, `Concept`,
  `MinimalProfile`, `Group`, `Topic` and `Entity`). They append text to a `StringWriter`.
  Each one is proved to write exactly the compact text of an explicit JSON document,
  with its keys in their fixed order and no key twice. `ShareVisibility` and `Concept` write
  every part themselves (`Json.Print`). The other four write each key through
  `JSONObject.quote` and most values through `JsonUtils.toJson`, whose escaping is Jackson's
  and not `JSONObject.quote`'s. Their text is `Json.HandWritten`, which records which
  writer produced each value.
- **Tolerant decoders** (`toObject`, `toList` and the id and keyword loops). `toObject`
  returns null on any `JSONException`. Every list is scanned with the idiom
  `for (i = 0; arr.optString(i).length() > 0; i++)`, so only the elements before the
  first blank one are kept. Round trips are proved where they hold: `ShareVisibility`,
  `Concept`, `MinimalProfile`, `Group` and `Entity`. Where they fail, the failure is proved
  too: `Topic.toJson` never writes the four flags `Topic.toObject` requires.
- **Requests in `network.RemoteConnector`**:
  - the `?position=P&size=S&type=T` query string with its defaults, and a proof that it
    reads back;
  - the URLs, and the `Accept` and `AUTH_TOKEN` headers, set through a mutable `Request`
    object whose `setHeader` scans its header list;
  - the classification of responses (200, 403, anything else, I/O failure), including the
    `putJSON` catch-all that turns a 403 into a service error;
  - the `new Boolean(text)` parse of `share` and `unshare`.
- **The `SocialService` façade**:
  - the path of each resource;
  - the paging map of `getSharedContents` and `getMyContents`, where a null position or
    size becomes -1 and the type is put even when null;
  - the URL-encoded prefix lookups;
  - the boolean results;
  - the two kinds of exception wrapping: `catch (RemoteException)` and `catch (Exception)`.

Library routines and code outside the model are function parameters. The `Model.Codec`
bundle carries:
- the org.json parser (`parse`);
- `JSONObject.quote` (`quote`);
- the string escaping of Jackson's writer (`jacksonQuote`);
- what `getLong` and `getInt` make of a string value;
- `JsonUtils.toJson` (`jackson`), as the document it writes;
- `UserInformation.toJson`;
- `Community.toList`.

The HTTP client is a function from the request as sent to the response, so is the
transport behind `SocialService`, and so is `URLEncoder.encode`. Round trips assume that
the parser reads back what `Json.Print` writes (`Json.ParsesPrinted`), and an object whose
values come from either writer (`Json.ParsesHandWritten`). They also assume
that Jackson writes numbers, strings and lists of them as JSON does (`Model.StandardScalars`).
Where the hand-written encoders spell a key out literally, they assume that quoting leaves
letters and digits alone (`Json.QuotesPlain`).

The org.json accessors follow Android's `org.json`, the library an Android client runs on:
- `getString` is the text of any present value, including arrays and `null`;
- `getLong` reads numbers, and strings through `longOfText`;
- `getBoolean` also reads the strings "true" and "false" in any letter case;
- `isNull` holds for an absent key or a null value;
- a repeated key keeps the last value (`Json.Get`). That rule only matters for a parse
  that keeps repeated keys; the encoders of this model never write a key twice.

## Model

| member | source | states |
|---|---|---|
| Paths.Path | src/main/java/eu/trentorise/smartcampus/socialservice/SocialService.java:116-117 | a single-resource path starts with the service root and ends with the id |
| Paths.PathInjective | src/main/java/eu/trentorise/smartcampus/socialservice/SocialService.java:116-117 | within one resource, `SERVICE + constant + id` determines the id |
| Paths.NumberedPathReadsBack | src/main/java/eu/trentorise/smartcampus/socialservice/network/RemoteConnector.java:164-166 | the path of a `long` id reads back as that id, so two ids give one path only when they are equal |
| Decimal.ParseLongText | src/main/java/eu/trentorise/smartcampus/socialservice/model/Group.java:73-75 | the decimal text string concatenation writes for a `long` parses back to it |
| Decimal.LongTextInjective | src/main/java/eu/trentorise/smartcampus/socialservice/model/Topic.java:181-183 | distinct `long`s have distinct decimal texts |
| JavaLang.ParseBooleanLetters | src/main/java/eu/trentorise/smartcampus/socialservice/network/RemoteConnector.java:161 | `new Boolean(s)` is true exactly for the four letters t, r, u, e, each in either case |
| JavaLang.ParseBooleanText | src/main/java/eu/trentorise/smartcampus/socialservice/network/RemoteConnector.java:167 | `Boolean.toString` parses back, and the JSON string `"true"` with its quotes parses as false |
| Scan.PrefixLength | src/main/java/eu/trentorise/smartcampus/socialservice/model/ShareVisibility.java:170 | the scan visits exactly the elements before the first blank one |
| Scan.PrefixStopsAtBlank | src/main/java/eu/trentorise/smartcampus/socialservice/model/ShareVisibility.java:170 | whatever follows a blank element is never read |
| Scan.NoBlankReadsAll | src/main/java/eu/trentorise/smartcampus/socialservice/model/ShareVisibility.java:170 | an array with no blank element is read whole |
| Scan.LongsOf | src/main/java/eu/trentorise/smartcampus/socialservice/model/Entity.java:134-136 | `getLong` of each scanned element; one unreadable element fails the whole list |
| Scan.Texts | src/main/java/eu/trentorise/smartcampus/socialservice/model/Topic.java:240-243 | `getString` of each scanned element, in order |
| Scan.ReadLongs | src/main/java/eu/trentorise/smartcampus/socialservice/model/ShareVisibility.java:131-139 | the id loop returns the ids of the elements before the first blank one, in order |
| Scan.ReadStrings | src/main/java/eu/trentorise/smartcampus/socialservice/model/Topic.java:237-246 | the keyword loop returns the texts of the elements before the first blank one, in order |
| Scan.ReadsBackNums | src/main/java/eu/trentorise/smartcampus/socialservice/model/ShareVisibility.java:131-139 | ids written as JSON numbers are read back whole and in order |
| Scan.ReadsBackStrs | src/main/java/eu/trentorise/smartcampus/socialservice/model/Topic.java:237-246 | non-empty strings written as a JSON array are read back whole and in order |
| Scan.DecodeList | src/main/java/eu/trentorise/smartcampus/socialservice/model/Concept.java:95-109 | `toList`: null exactly when the text is no array; otherwise one decoded element per element before the first blank one |
| Scan.ReadList | src/main/java/eu/trentorise/smartcampus/socialservice/model/Group.java:90-104 | the `toList` loop computes `DecodeList` |
| Scan.ReadElements | src/main/java/eu/trentorise/smartcampus/socialservice/model/Group.java:94-97 | the loop body decodes the text of each scanned element, in order |
| Json.HandWrittenPrint | src/main/java/eu/trentorise/smartcampus/socialservice/model/Group.java:106-122 | when both writers escape alike, the hand-written text is the printed document |
| Json.HandWrittenObject | src/main/java/eu/trentorise/smartcampus/socialservice/model/Group.java:77-122 | a parser that reads hand-written objects back gives exactly their members |
| ShareVisibilityCodec.Members | src/main/java/eu/trentorise/smartcampus/socialservice/model/ShareVisibility.java:182-232 | the seven keys in their fixed order, none twice; the flags as booleans; a null id list as the empty array |
| ShareVisibilityCodec.IdsTextPrints | src/main/java/eu/trentorise/smartcampus/socialservice/model/ShareVisibility.java:193-200 | the comma-separated ids are the compact JSON array body of the list |
| ShareVisibilityCodec.IdsTextCommas | src/main/java/eu/trentorise/smartcampus/socialservice/model/ShareVisibility.java:193-200 | n ids are written with exactly n-1 commas and no leading or trailing comma |
| ShareVisibilityCodec.WriteIds | src/main/java/eu/trentorise/smartcampus/socialservice/model/ShareVisibility.java:191-202 | the `isFirst` loop appends exactly the id text, and the same text for a null list as for an empty one |
| ShareVisibilityCodec.ToJson | src/main/java/eu/trentorise/smartcampus/socialservice/model/ShareVisibility.java:182-232 | `toJson` writes exactly the compact text of the document, for every quoting routine that leaves letters alone |
| ShareVisibilityCodec.WrittenText | src/main/java/eu/trentorise/smartcampus/socialservice/model/ShareVisibility.java:182-232 | the eight writes, put together, are the printed document |
| ShareVisibilityCodec.FlagsText | src/main/java/eu/trentorise/smartcampus/socialservice/model/ShareVisibility.java:185-190 | each flag is written as the literal true or false of its value |
| ShareVisibilityCodec.IdList | src/main/java/eu/trentorise/smartcampus/socialservice/model/ShareVisibility.java:131-159 | a null or absent key leaves the list null; otherwise the ids before the first blank element; a non-array fails |
| ShareVisibilityCodec.ReadIdList | src/main/java/eu/trentorise/smartcampus/socialservice/model/ShareVisibility.java:131-139 | the `isNull` test and the loop compute `IdList` |
| ShareVisibilityCodec.Decode | src/main/java/eu/trentorise/smartcampus/socialservice/model/ShareVisibility.java:121-164 | a decoded visibility holds the four flags `getBoolean` reads and the three id lists |
| ShareVisibilityCodec.MissingFlagFails | src/main/java/eu/trentorise/smartcampus/socialservice/model/ShareVisibility.java:125-129 | a missing or unreadable flag makes `toObject` return null |
| ShareVisibilityCodec.ToObject | src/main/java/eu/trentorise/smartcampus/socialservice/model/ShareVisibility.java:121-164 | the setter sequence computes `Decode` |
| ShareVisibilityCodec.ToList | src/main/java/eu/trentorise/smartcampus/socialservice/model/ShareVisibility.java:166-180 | `toList` decodes the elements before the first blank one, in order; null for a non-array |
| ShareVisibilityCodec.RoundTrip | src/main/java/eu/trentorise/smartcampus/socialservice/model/ShareVisibility.java:121-232 | decoding what `toJson` writes gives the visibility back, with each null list as an empty list |
| ShareVisibilityCodec.DocumentFlags | src/main/java/eu/trentorise/smartcampus/socialservice/model/ShareVisibility.java:185-190 | the four flags read back from the written document |
| ShareVisibilityCodec.DocumentIds | src/main/java/eu/trentorise/smartcampus/socialservice/model/ShareVisibility.java:191-228 | the three id lists read back from the written document, null ones as empty |
| ShareVisibilityCodec.IdListReadsBack | src/main/java/eu/trentorise/smartcampus/socialservice/model/ShareVisibility.java:131-139 | an array of ids under a key is read back as exactly those ids |
| ConceptCodec.IdText | src/main/java/eu/trentorise/smartcampus/socialservice/model/Concept.java:114 | the unquoted id is the printed JSON number, or the literal null for a null id |
| ConceptCodec.Members | src/main/java/eu/trentorise/smartcampus/socialservice/model/Concept.java:111-126 | keys id, description, name, summary in that order, none twice; a null string as "" |
| ConceptCodec.ToJsonPrints | src/main/java/eu/trentorise/smartcampus/socialservice/model/Concept.java:111-126 | what `toJson` (`ConceptCodec.ToJson`) concatenates is the printed document: keys id, description, name, summary in that order, the id unquoted as a number or the literal null, null strings as "" |
| ConceptCodec.ToObject | src/main/java/eu/trentorise/smartcampus/socialservice/model/Concept.java:81-93 | null unless all four members read; a decoded concept has no null field |
| ConceptCodec.ToList | src/main/java/eu/trentorise/smartcampus/socialservice/model/Concept.java:95-109 | `toList` decodes the elements before the first blank one; null for a non-array |
| ConceptCodec.RoundTrip | src/main/java/eu/trentorise/smartcampus/socialservice/model/Concept.java:81-126 | with an id, decoding the written document keeps it and gives null strings as ""; with a null id it gives null |
| ConceptCodec.ToJsonRoundTrip | src/main/java/eu/trentorise/smartcampus/socialservice/model/Concept.java:81-126 | the same round trip, through the text `toJson` concatenates |
| UserInformationCodec.ToObject | src/main/java/eu/trentorise/smartcampus/socialservice/model/UserInformation.java:47-57 | null unless both faculty and position read; then exactly those texts |
| UserInformationCodec.ReadsDocument | src/main/java/eu/trentorise/smartcampus/socialservice/model/UserInformation.java:47-57 | an object with both strings decodes to them |
| MinimalProfileCodec.ToObject | src/main/java/eu/trentorise/smartcampus/socialservice/model/MinimalProfile.java:98-113 | null unless the six members read; `known` is never read and so is always false |
| MinimalProfileCodec.ToList | src/main/java/eu/trentorise/smartcampus/socialservice/model/MinimalProfile.java:115-129 | `toList` decodes the elements before the first blank one; null for a non-array |
| MinimalProfileCodec.Members | src/main/java/eu/trentorise/smartcampus/socialservice/model/MinimalProfile.java:131-153 | keys userId, socialId, name, surname, pictureUrl, known, userInformation in that order, none twice; a null name or surname as "" |
| MinimalProfileCodec.ToJson | src/main/java/eu/trentorise/smartcampus/socialservice/model/MinimalProfile.java:131-159 | null exactly for a null profile or a throwing nested encoder; otherwise the document with names quoted by `JSONObject.quote`, the nested text as its encoder wrote it, the rest by Jackson |
| MinimalProfileCodec.Written | src/main/java/eu/trentorise/smartcampus/socialservice/model/MinimalProfile.java:133-153 | the writes, put together, are that document, each value in its own writer's escaping |
| MinimalProfileCodec.RoundTrip | src/main/java/eu/trentorise/smartcampus/socialservice/model/MinimalProfile.java:98-159 | decoding the written profile keeps the ids, gives null names as "", and always loses `known` |
| MinimalProfileCodec.MembersRead | src/main/java/eu/trentorise/smartcampus/socialservice/model/MinimalProfile.java:98-109 | each accessor of `toObject` reads back what `toJson` wrote |
| GroupCodec.GetIdParses | src/main/java/eu/trentorise/smartcampus/socialservice/model/Group.java:73-75 | the id is the decimal text of the social id and parses back to it; equal ids mean equal social ids |
| GroupCodec.Decode | src/main/java/eu/trentorise/smartcampus/socialservice/model/Group.java:77-88 | null exactly when the text is no object or name, socialId or users does not read; users by `MinimalProfile.toList` |
| GroupCodec.ToObject | src/main/java/eu/trentorise/smartcampus/socialservice/model/Group.java:77-88 | the setter sequence computes `Decode` |
| GroupCodec.UsersNotArray | src/main/java/eu/trentorise/smartcampus/socialservice/model/Group.java:83 | a users member that is no array gives null users, not a null group |
| GroupCodec.ToList | src/main/java/eu/trentorise/smartcampus/socialservice/model/Group.java:90-104 | `toList` decodes the elements before the first blank one, in order |
| GroupCodec.Members | src/main/java/eu/trentorise/smartcampus/socialservice/model/Group.java:106-122 | keys name, socialId, users in that order, none twice |
| GroupCodec.ToJson | src/main/java/eu/trentorise/smartcampus/socialservice/model/Group.java:106-122 | null exactly for a null group; otherwise the document with keys quoted by `JSONObject.quote` and values written by Jackson |
| GroupCodec.Written | src/main/java/eu/trentorise/smartcampus/socialservice/model/Group.java:108-117 | the writes, put together, are that document |
| GroupCodec.RoundTrip | src/main/java/eu/trentorise/smartcampus/socialservice/model/Group.java:77-122 | decoding the written group keeps the social id and gives a null name as "null" |
| TopicCodec.StatusCodes | src/main/java/eu/trentorise/smartcampus/socialservice/model/Topic.java:37-49 | ACTIVE is 1, SUSPENDED is 2, and the code tells them apart |
| TopicCodec.GetIdParses | src/main/java/eu/trentorise/smartcampus/socialservice/model/Topic.java:181-183 | the id parses back to the social id; equal ids mean equal social ids |
| TopicCodec.TextList | src/main/java/eu/trentorise/smartcampus/socialservice/model/Topic.java:237-256 | a null or absent list stays null; otherwise the texts before the first blank element; a non-array fails |
| TopicCodec.ReadTextList | src/main/java/eu/trentorise/smartcampus/socialservice/model/Topic.java:237-246 | the `isNull` test and the loop compute `TextList` |
| TopicCodec.Head | src/main/java/eu/trentorise/smartcampus/socialservice/model/Topic.java:229-256 | the four flags, communities, concepts, contentTypes and keywords, each as its accessor reads it |
| TopicCodec.Tail | src/main/java/eu/trentorise/smartcampus/socialservice/model/Topic.java:258-263 | entities, groups, name, socialId, status and users as read, the other fields unchanged |
| TopicCodec.Decode | src/main/java/eu/trentorise/smartcampus/socialservice/model/Topic.java:225-268 | a decoded topic holds the flags, lists and scalars its accessors read |
| TopicCodec.MissingFlagFails | src/main/java/eu/trentorise/smartcampus/socialservice/model/Topic.java:229-233 | a missing or unreadable flag makes `toObject` return null |
| TopicCodec.ToObject | src/main/java/eu/trentorise/smartcampus/socialservice/model/Topic.java:225-268 | the setter sequence computes `Decode` |
| TopicCodec.ReadHead | src/main/java/eu/trentorise/smartcampus/socialservice/model/Topic.java:229-256 | the first setters compute `Head` |
| TopicCodec.ReadTail | src/main/java/eu/trentorise/smartcampus/socialservice/model/Topic.java:258-263 | the last setters compute `Tail` |
| TopicCodec.ToList | src/main/java/eu/trentorise/smartcampus/socialservice/model/Topic.java:270-284 | `toList` decodes the elements before the first blank one, in order |
| TopicCodec.Members | src/main/java/eu/trentorise/smartcampus/socialservice/model/Topic.java:286-317 | the eleven keys in their fixed order, none twice, without the four flags |
| TopicCodec.FirstMembers | src/main/java/eu/trentorise/smartcampus/socialservice/model/Topic.java:290-301 | communities, concepts, contentTypes, entities, groups, id |
| TopicCodec.LastMembers | src/main/java/eu/trentorise/smartcampus/socialservice/model/Topic.java:302-311 | keywords, name, socialId, status, users |
| TopicCodec.ToJson | src/main/java/eu/trentorise/smartcampus/socialservice/model/Topic.java:286-317 | null exactly for a null topic; otherwise the document with keys quoted by `JSONObject.quote` and values written by Jackson |
| TopicCodec.FirstSix | src/main/java/eu/trentorise/smartcampus/socialservice/model/Topic.java:288-301 | the first six writes open that document up to its sixth member |
| TopicCodec.LastFive | src/main/java/eu/trentorise/smartcampus/socialservice/model/Topic.java:302-312 | the last five writes and the brace complete that document |
| TopicCodec.NeverReadsBack | src/main/java/eu/trentorise/smartcampus/socialservice/model/Topic.java:225-317 | decoding what `toJson` writes always gives null, because the flags are never written |
| EntityCodec.Decode | src/main/java/eu/trentorise/smartcampus/socialservice/model/Entity.java:123-148 | null exactly when a required member does not read; relations by the scan, tags by `Concept.toList` |
| EntityCodec.ToObject | src/main/java/eu/trentorise/smartcampus/socialservice/model/Entity.java:123-148 | the setter sequence computes `Decode` |
| EntityCodec.ToList | src/main/java/eu/trentorise/smartcampus/socialservice/model/Entity.java:150-164 | `toList` decodes the elements before the first blank one; null for a non-array |
| EntityCodec.Members | src/main/java/eu/trentorise/smartcampus/socialservice/model/Entity.java:166-186 | keys id, name, description, creatorId, type, typeId, relations, tags in that order, none twice |
| EntityCodec.ToJson | src/main/java/eu/trentorise/smartcampus/socialservice/model/Entity.java:166-191 | null exactly for a null entity; otherwise the document with keys quoted by `JSONObject.quote` and values written by Jackson |
| EntityCodec.Written | src/main/java/eu/trentorise/smartcampus/socialservice/model/Entity.java:168-186 | the writes, put together, are that document |
| EntityCodec.RoundTrip | src/main/java/eu/trentorise/smartcampus/socialservice/model/Entity.java:123-191 | decoding the written entity keeps ids and relations; null strings come back as "null" |
| EntityCodec.IdsRead | src/main/java/eu/trentorise/smartcampus/socialservice/model/Entity.java:127-143 | id, creatorId and typeId read back from the written members |
| EntityCodec.TextsRead | src/main/java/eu/trentorise/smartcampus/socialservice/model/Entity.java:128-142 | name, description and type read back, a null one as "null" |
| EntityCodec.ListsRead | src/main/java/eu/trentorise/smartcampus/socialservice/model/Entity.java:131-140 | the relations read back whole, and the tags as the text Jackson wrote |
| EntityTypeCodec.ToObject | src/main/java/eu/trentorise/smartcampus/socialservice/model/EntityType.java:65-76 | null unless id, name and concept read; a malformed concept leaves the concept null |
| SharedContentCodec.DateCompare | src/main/java/eu/trentorise/smartcampus/socialservice/model/SharedContent.java:117 | the sign of `Date.compareTo`: negative, zero or positive as the milliseconds compare |
| SharedContentCodec.AsWrittenNullFirst | src/main/java/eu/trentorise/smartcampus/socialservice/model/SharedContent.java:116-119 | with a null own date: -1 against a dated content, 0 against an undated one |
| SharedContentCodec.AsWrittenByDate | src/main/java/eu/trentorise/smartcampus/socialservice/model/SharedContent.java:116-119 | with two dates the order is by date, and a content compares equal to itself |
| SharedContentCodec.AsWrittenNotAntisymmetric | src/main/java/eu/trentorise/smartcampus/socialservice/model/SharedContent.java:116-119 | undated vs dated gives -1, but dated vs undated throws |
| SharedContentCodec.Compare | src/main/java/eu/trentorise/smartcampus/socialservice/model/SharedContent.java:116-119 | the intended order gives -1, 0 or 1 |
| SharedContentCodec.CompareAgrees | src/main/java/eu/trentorise/smartcampus/socialservice/model/SharedContent.java:116-119 | wherever the written `compareTo` returns, it returns `Compare`; it throws exactly for a dated vs an undated content |
| SharedContentCodec.CompareAntisymmetric | src/main/java/eu/trentorise/smartcampus/socialservice/model/SharedContent.java:116-119 | `Compare(a, b) == -Compare(b, a)`, zero exactly for equal dates |
| SharedContentCodec.CompareTransitive | src/main/java/eu/trentorise/smartcampus/socialservice/model/SharedContent.java:116-119 | `Compare` is transitive |
| SharedContentCodec.ToArray | src/main/java/eu/trentorise/smartcampus/socialservice/model/SharedContent.java:137 | `toArray(new String[1])` is the elements, or one null slot for none |
| SharedContentCodec.TagArray | src/main/java/eu/trentorise/smartcampus/socialservice/model/SharedContent.java:130-138 | null or absent tags stay null; otherwise the array of the texts before the first blank element |
| SharedContentCodec.ReadTags | src/main/java/eu/trentorise/smartcampus/socialservice/model/SharedContent.java:130-138 | the `isNull` test, the loop and `toArray` compute `TagArray` |
| SharedContentCodec.Decode | src/main/java/eu/trentorise/smartcampus/socialservice/model/SharedContent.java:121-145 | null exactly when a member does not read; the creation date is the date at the epoch milliseconds read |
| SharedContentCodec.EmptyTagsOneNull | src/main/java/eu/trentorise/smartcampus/socialservice/model/SharedContent.java:130-138 | an empty tag array decodes as one null tag |
| SharedContentCodec.MalformedUserKept | src/main/java/eu/trentorise/smartcampus/socialservice/model/SharedContent.java:140 | an unreadable user leaves the user null, and the content is still returned |
| SharedContentCodec.ToObject | src/main/java/eu/trentorise/smartcampus/socialservice/model/SharedContent.java:121-145 | the setter sequence computes `Decode` |
| SharedContentCodec.ToList | src/main/java/eu/trentorise/smartcampus/socialservice/model/SharedContent.java:147-161 | `toList` decodes the elements before the first blank one; null for a non-array |
| RemoteConnector.UpdatedHeader | src/main/java/eu/trentorise/smartcampus/socialservice/network/RemoteConnector.java:183-184 | after `setHeader` the header reads the new value, and headers of other names are unchanged |
| RemoteConnector.UpdatedAt | src/main/java/eu/trentorise/smartcampus/socialservice/network/RemoteConnector.java:183-184 | replacing at the first match, or appending when there is none, is `setHeader` |
| RemoteConnector.HeadersCarryToken | src/main/java/eu/trentorise/smartcampus/socialservice/network/RemoteConnector.java:183-184 | every request accepts `application/json` and carries the token under `AUTH_TOKEN` |
| RemoteConnector.Request.SetHeader | src/main/java/eu/trentorise/smartcampus/socialservice/network/RemoteConnector.java:183-184 | the scan replaces the first header of that name or appends one; the payload is unchanged |
| RemoteConnector.Request.SetEntity | src/main/java/eu/trentorise/smartcampus/socialservice/network/RemoteConnector.java:221-223 | the payload is the body typed `application/json`; the headers are unchanged |
| RemoteConnector.QueryString | src/main/java/eu/trentorise/smartcampus/socialservice/network/RemoteConnector.java:175-180 | the `+=` steps build the query string |
| RemoteConnector.ReadField | src/main/java/eu/trentorise/smartcampus/socialservice/network/RemoteConnector.java:176-178 | a number's text has no `&`, so it reads back up to the next `&` |
| RemoteConnector.QueryReadsBack | src/main/java/eu/trentorise/smartcampus/socialservice/network/RemoteConnector.java:175-180 | the query string reads back as the position, the size and the type, with -1, -1 and "" for null |
| RemoteConnector.ClassifyStatus | src/main/java/eu/trentorise/smartcampus/socialservice/network/RemoteConnector.java:188-201 | 200 is the only success and returns the body; 403 is the only security failure; other statuses fail with "Error validating " and the status line |
| RemoteConnector.PutNeverSecurity | src/main/java/eu/trentorise/smartcampus/socialservice/network/RemoteConnector.java:252-269 | a PUT never ends in a security failure: a 403 is re-thrown as a service error |
| RemoteConnector.GetJson | src/main/java/eu/trentorise/smartcampus/socialservice/network/RemoteConnector.java:170-203 | GET `host + service + query` with the two headers, classified |
| RemoteConnector.PostJson | src/main/java/eu/trentorise/smartcampus/socialservice/network/RemoteConnector.java:205-242 | POST with the same query rule, headers and a JSON body, classified |
| RemoteConnector.PutJson | src/main/java/eu/trentorise/smartcampus/socialservice/network/RemoteConnector.java:244-270 | PUT `host + service` without a query, classified by the catch-all |
| RemoteConnector.DeleteJson | src/main/java/eu/trentorise/smartcampus/socialservice/network/RemoteConnector.java:272-298 | DELETE `host + service` without a query or body, classified |
| RemoteConnector.GetGroups | src/main/java/eu/trentorise/smartcampus/socialservice/network/RemoteConnector.java:90-94 | GET the group collection, decoded by `Group.toList` |
| RemoteConnector.GetGroup | src/main/java/eu/trentorise/smartcampus/socialservice/network/RemoteConnector.java:96-101 | GET the group path followed by the id, decoded by `Group.toObject` |
| RemoteConnector.GetCommunity | src/main/java/eu/trentorise/smartcampus/socialservice/network/RemoteConnector.java:103-109 | GET the community path followed by the id, decoded by `Community.toObject` |
| RemoteConnector.GetCommunities | src/main/java/eu/trentorise/smartcampus/socialservice/network/RemoteConnector.java:111-116 | GET the community collection, decoded by `Community.toList` |
| RemoteConnector.GetTopics | src/main/java/eu/trentorise/smartcampus/socialservice/network/RemoteConnector.java:118-122 | GET the topic collection, decoded by `Topic.toList` |
| RemoteConnector.GetTopic | src/main/java/eu/trentorise/smartcampus/socialservice/network/RemoteConnector.java:124-129 | GET the topic path followed by the id, decoded by `Topic.toObject` |
| RemoteConnector.GetShareVisibility | src/main/java/eu/trentorise/smartcampus/socialservice/network/RemoteConnector.java:131-136 | GET the assignments path followed by the entity id, decoded by `ShareVisibility.toObject` |
| RemoteConnector.GetMyContents | src/main/java/eu/trentorise/smartcampus/socialservice/network/RemoteConnector.java:138-144 | GET the contents with the paging query, decoded by `SharedContent.toList` |
| RemoteConnector.GetSharedContents | src/main/java/eu/trentorise/smartcampus/socialservice/network/RemoteConnector.java:146-154 | POST `ShareVisibility.toJson` with the paging query, decoded by `SharedContent.toList` |
| RemoteConnector.Share | src/main/java/eu/trentorise/smartcampus/socialservice/network/RemoteConnector.java:156-162 | POST the operation; true exactly for "true" in any letter case |
| RemoteConnector.Unshare | src/main/java/eu/trentorise/smartcampus/socialservice/network/RemoteConnector.java:164-168 | PUT an empty body at the unshare path followed by the id; true exactly for "true" in any letter case |
| RemoteConnector.QuotedTrueIsFalse | src/main/java/eu/trentorise/smartcampus/socialservice/network/RemoteConnector.java:164-168 | an unshare answered with the quoted JSON string `"true"` reports false |
| SocialServiceApi.ReceivedOutcomes | src/main/java/eu/trentorise/smartcampus/socialservice/SocialService.java:93-99 | every `RemoteException` ends as a service failure with its message; a security failure passes only through `catch (RemoteException)` |
| SocialServiceApi.BooleanAnswer | src/main/java/eu/trentorise/smartcampus/socialservice/SocialService.java:220-229 | a boolean call returns true exactly for a body equal to "true" in any case; the quoted string gives false |
| SocialServiceApi.PagingParameters | src/main/java/eu/trentorise/smartcampus/socialservice/SocialService.java:275-286 | the reassignments and `put`s build the paging map |
| SocialServiceApi.PagingDefaults | src/main/java/eu/trentorise/smartcampus/socialservice/SocialService.java:276-286 | a null position or size is the same request as -1; given values are kept; the type key is always put, null exactly for a null type id |
| SocialServiceApi.PagingAgreesWithQuery | src/main/java/eu/trentorise/smartcampus/socialservice/SocialService.java:315-325 | the façade's position and size are those the connector's query string reads back |
| SocialServiceApi.SocialService.GetGroups | src/main/java/eu/trentorise/smartcampus/socialservice/SocialService.java:91-100 | GET the group collection, decoded by `Group.toList` |
| SocialServiceApi.SocialService.GetGroup | src/main/java/eu/trentorise/smartcampus/socialservice/SocialService.java:113-123 | GET the group path followed by the id, decoded by `Group.toObject` |
| SocialServiceApi.SocialService.GetCommunity | src/main/java/eu/trentorise/smartcampus/socialservice/SocialService.java:136-145 | GET the community path followed by the id, decoded by `Community.toObject` |
| SocialServiceApi.SocialService.GetCommunities | src/main/java/eu/trentorise/smartcampus/socialservice/SocialService.java:156-165 | GET the community collection, decoded by `Community.toList` |
| SocialServiceApi.SocialService.GetTopics | src/main/java/eu/trentorise/smartcampus/socialservice/SocialService.java:176-185 | GET the topic collection, decoded by `Topic.toList` |
| SocialServiceApi.SocialService.GetTopic | src/main/java/eu/trentorise/smartcampus/socialservice/SocialService.java:198-207 | GET the topic path followed by the id, decoded by `Topic.toObject` |
| SocialServiceApi.SocialService.Share | src/main/java/eu/trentorise/smartcampus/socialservice/SocialService.java:220-229 | POST the operation to the share path; true exactly for "true" in any case |
| SocialServiceApi.SocialService.Unshare | src/main/java/eu/trentorise/smartcampus/socialservice/SocialService.java:242-251 | PUT an empty body at the unshare path followed by the id; true exactly for "true" in any case |
| SocialServiceApi.SocialService.GetSharedContents | src/main/java/eu/trentorise/smartcampus/socialservice/SocialService.java:272-294 | POST `ShareVisibility.toJson` with the defaulted paging map, decoded by `SharedContent.toList` |
| SocialServiceApi.SocialService.GetMyContents | src/main/java/eu/trentorise/smartcampus/socialservice/SocialService.java:311-332 | GET the contents with the defaulted paging map, decoded by `SharedContent.toList` |
| SocialServiceApi.SocialService.GetShareVisibility | src/main/java/eu/trentorise/smartcampus/socialservice/SocialService.java:345-355 | GET the assignments path followed by the id, decoded by `ShareVisibility.toObject` |
| SocialServiceApi.SocialService.CreateEntityType | src/main/java/eu/trentorise/smartcampus/socialservice/SocialService.java:368-377 | POST an empty body at the entity-type path followed by the concept id |
| SocialServiceApi.SocialService.GetEntityTypeById | src/main/java/eu/trentorise/smartcampus/socialservice/SocialService.java:390-399 | GET the entity type at its id, decoded by `EntityType.toObject` |
| SocialServiceApi.SocialService.GetEntityTypeByConceptId | src/main/java/eu/trentorise/smartcampus/socialservice/SocialService.java:412-421 | GET the entity type of a concept, decoded by `EntityType.toObject` |
| SocialServiceApi.SocialService.GetEntityTypeByPrefix | src/main/java/eu/trentorise/smartcampus/socialservice/SocialService.java:437-450 | GET at the URL-encoded prefix with `maxResults` as the only parameter; a null prefix fails before any request; every exception is wrapped |
| SocialServiceApi.SocialService.GetConceptByPrefix | src/main/java/eu/trentorise/smartcampus/socialservice/SocialService.java:466-479 | GET suggestions at the URL-encoded prefix with `maxResults`, decoded by `Concept.toList`; a null prefix fails before any request; every exception is wrapped |
| SocialServiceApi.SocialService.CreateEntity | src/main/java/eu/trentorise/smartcampus/socialservice/SocialService.java:492-501 | POST `Entity.toJson` (null for a null entity) to the entity path, decoded by `Entity.toObject` |
| SocialServiceApi.SocialService.DeleteEntity | src/main/java/eu/trentorise/smartcampus/socialservice/SocialService.java:514-523 | DELETE the entity at its id; true exactly for "true" in any case; every exception is wrapped |
| SocialServiceApi.SocialService.UpdateEntity | src/main/java/eu/trentorise/smartcampus/socialservice/SocialService.java:536-545 | PUT `Entity.toJson` to the entity path; true exactly for "true" in any case; every exception is wrapped |

## Left out

- HTTP execution (`getHttpClient`, `execute`, `EntityUtils.toString`, the timeouts). Executing a request is a function parameter from the request as sent to the response or I/O failure.
- The transport behind `SocialService` (`eu.trentorise.smartcampus.network.RemoteConnector`, another library) is a function parameter. Its `RemoteException` is a reply carrying the cause's message.
- `SocialServiceException`'s own message when it wraps a cause. The model keeps the cause's message.
- The org.json text parser, `JSONObject.quote`, `JsonUtils.toJson`, `URLEncoder.encode` and the string coercion inside `getLong` and `getInt` are function parameters, not definitions.
- `UserInformation.toJson`, `Community.toObject`, `Community.toList`, `EntityType.toList` and `ShareOperation.toJson` are not part of this model. They are parameters: the decoders are functions, and the share operation is its text.
- `java.util.Date` is its epoch milliseconds.
- The `beans` package, the test client and its constants hold no logic of the modelled layers.
- The validity of the URL handed to `HttpGet` and the other request classes is not modelled. A malformed URL is not modelled as an exception.
- `RemoteConnector.GetSharedContents`: a null `ShareVisibility` is not modelled, because `ShareVisibility.toJson(null)` throws before any request. The visibility is always present.
- `SocialServiceApi.SocialService.GetSharedContents` takes a visibility that is present. With a null one, `ShareVisibility.toJson(null)` throws a `NullPointerException` (src/main/java/eu/trentorise/smartcampus/socialservice/SocialService.java:287-289) that `catch (RemoteException)` does not catch; the outcomes model no unchecked exception.
- `ShareVisibilityCodec.ToJson`: the id lists are `seq<Long>`, so an element is never null. A null element of a `List<Long>` makes `i.toString()` throw a `NullPointerException` (src/main/java/eu/trentorise/smartcampus/socialservice/model/ShareVisibility.java:198); that is not modelled.
- `RemoteConnector.PostJson`: `new StringEntity(null)` for a null body is not modelled. The body is a string.
- `SocialServiceApi.SocialService.GetSharedContents` and `RemoteConnector.GetSharedContents` state the body for every quoting routine that leaves letters alone. `ShareVisibility.toJson` spells its keys out literally.
- Numbers are `long`s only (`Json.JNum`). A fractional or out-of-range number such as 1.5 or 1e20 is never a parse result, so the truncation `getLong` applies to a double and the text `getString` gives for one are not modelled.
- `ConceptCodec.ToJson` takes a concept that is present. `Concept.toJson(null)` throws an uncaught `NullPointerException` at its first getter (src/main/java/eu/trentorise/smartcampus/socialservice/model/Concept.java:114); no caller in the model passes null.
- `MinimalProfileCodec.ToObject`: `SCUser`, the superclass that declares `userId` and `socialId`, is not part of this model. Both ids are taken as `long`, the type `getLong` reads, so an id that `SCUser` might hold as a null `Long` is not modelled.
- `MinimalProfileCodec.ToJson`: the text `UserInformation.toJson` writes is taken as `Json.Print` of its document with `JSONObject.quote`'s escaping. That encoder is not part of this model.
- `TopicCodec.Decode` states what a decoded topic holds, but not the converse. That a missing flag gives null is the separate lemma `MissingFlagFails`.
- `ShareVisibilityCodec.Decode` states what a decoded visibility holds, but not the converse. `MissingFlagFails` and `RoundTrip` give the failing and the succeeding direction.

## Findings

| source | as written | input that shows it | evidently intended | confidence | as-written member | corrected member |
|---|---|---|---|---|---|---|
| src/main/java/eu/trentorise/smartcampus/socialservice/model/SharedContent.java:116-119 | `compareTo` calls `creationDate.compareTo(o.getCreationDate())` when its own date is set, and `Date.compareTo(null)` throws `NullPointerException` | a content with date 0 compared with a content without a date throws, while the reverse comparison returns -1 | contents without a date sort first, in both directions, as the null-own-date branch already does | not executed | SharedContentCodec.AsWrittenNotAntisymmetric | SharedContentCodec.CompareAntisymmetric |
