# Chart builder, REST router and request gate, modelled in Dafny

This project models the core of a PHP web application built on the Adianti framework.

- **Chart widget (`BChart`).** It checks its settings and assembles the SQL query that loads a chart. It reshapes the result rows into the series the front-end chart library draws, builds the library's option tree, and creates many charts grouped by database, one transaction per database.
- **REST router (`Router`).** It registers routes under nested URL prefixes and middleware groups, looks a request up, and answers 404 when no route matches.
- **Application front door (`TApplication::run`).** It decides whether a request is dispatched, refused with 401, or stopped by a failed mobile-token login.
- **Two browser-side helpers of the chat service.** These are `formatTimestamp`, a mask-based date formatter, and `isSameDay`.

Each operation is a pure function over immutable datatypes. A PHP value is a `Cell`, either a number or a text, so the comparisons are exact. PHP truthiness is stated explicitly: `Strings.Truthy` is false for "" and "0", and `Permissions.LooselyFalse` is PHP's `== false`. Exceptions become the `Err` side of a `Result`.

The modules follow the source:

- `ChartConfig`: the setters and the required-parameter check.
- `ChartQuery`: the query of `loadData`.
- `ChartColors`: colour extraction.
- `Pivot` and `ChartShapes`: bar, line and pie reshaping.
- `ChartTooltip`: `formatTooltip`.
- `ChartOptions`: `makeOptions`.
- `ChartBatches`: `generate`, `canDisplay`, and `create` failing through the parameter check of `loadData`.
- `Router`.
- `Permissions`: `run` and `getDefaultPermissions`.
- `Timestamp`.

`Strings`, `Seqs`, `Cells` and `Results` hold the PHP and JavaScript library behaviour the core relies on: `ltrim`, `rtrim`, `implode`, `str_replace`, `array_search`, `array_unique`, `array_column` with keys, `padStart` and `slice(-2)`.

The two-group reshaping is the centre of the chart model:

- `Pivot.FoldPivot` is the source loop, which fills zero rows and writes at `array_search` positions.
- `Pivot.PivotSpec` is a declarative reference: one row per series, and in each cell the last total for that pair, or zero.
- `Pivot.FoldPivotIsSpec` proves the two equal.
- `ChartShapes.TwoGroupIsSortedSpec` proves the chart rows are that reference, sorted.

The bar chart's doubled loop over the categories (BChart.php 818-833) is kept as written. `ChartShapes.SearchLabelsPlace` shows it still places every total in the right column, because `array_search` finds the first copy.

One behaviour of `loadData` is kept as written, and its consequence is proved in `ChartQuery.OrdersDropTotal`. The code removes the first ORDER BY term whenever a colour field is set. If ordering by value is also set, that first term is the total, not the colour alias, so the total order is dropped and the colour alias stays first.

The bar chart's loop over the categories is nested, so a bar axis has n×n category texts for n categories, of which the first n are the line chart's; the model keeps it (`ChartShapes.CategoryLists`).

Year 0 prints as the letter `Y`, because a zero replacement is falsy in JavaScript.

## Model

| member | source | states |
|---|---|---|
| ChartConfig.SetType | app/lib/widget/builder/charts/BChart.php:243-251 | Accepted exactly for pie, line, bar and donut. The accepted kind's name is the input. Otherwise the error names the rejected value. |
| ChartConfig.SetTypeRoundTrip | app/lib/widget/builder/charts/BChart.php:243-251 | Every chart kind's name is accepted back as that kind. |
| ChartConfig.SetTotal | app/lib/widget/builder/charts/BChart.php:407-415 | Accepted exactly for sum, max, min, count and avg, as the matching aggregate. Otherwise the error names the value. |
| ChartConfig.SetTotalRoundTrip | app/lib/widget/builder/charts/BChart.php:407-415 | Every aggregate's SQL name is accepted back as that aggregate. |
| ChartConfig.SetFieldGroup | app/lib/widget/builder/charts/BChart.php:361-368 | At most two group fields are stored unchanged. More are rejected with an error naming fieldGroup. |
| ChartConfig.CheckRequired | app/lib/widget/builder/charts/BChart.php:558-576 | Passes exactly when database, model, the group list and the value field are all non-empty. Otherwise it reports the first empty one, in that order. |
| ChartConfig.FieldGroupWidths | app/lib/widget/builder/charts/BChart.php:558-576 | Together, `setFieldGroup` and the check in `loadData` accept exactly the field groups of one or two fields. |
| ChartConfig.CheckRequiredNames | app/lib/widget/builder/charts/BChart.php:558-576 | Every failure is a missing-parameter error naming one of the four parameters. |
| ChartConfig.Dimension | app/lib/widget/builder/charts/BChart.php:497-498 | A value containing '%' is kept. Any other value is the same text followed by "px". |
| ChartConfig.DefaultSizeValue | app/lib/widget/builder/charts/BChart.php:102 | The default size is 100% wide and 300px high. |
| ChartConfig.NumericHeightRoundTrip | app/lib/widget/builder/charts/BChart.php:1020 | A numeric height gains "px" from setSize, and makeOptions' removal of "px" gives the number's text back. |
| ChartConfig.PercentHeightKept | app/lib/widget/builder/charts/BChart.php:1020 | A percentage height without "px" reaches the size option unchanged. |
| Strings.StripPxOfSuffixed | app/lib/widget/builder/charts/BChart.php:1020 | Removing "px" from a value without "px", after "px" is appended, gives the value back. |
| ChartQuery.Qualify | app/lib/widget/builder/charts/BChart.php:660-664 | A name containing '.', ':' or '(' is kept. Any other name gets the entity and a dot in front. The result always counts as qualified. |
| ChartQuery.QualifyIdempotent | app/lib/widget/builder/charts/BChart.php:660-664 | Qualifying an already qualified value field changes nothing, so loading twice gives the same field. |
| ChartQuery.QualifyJoinSide | app/lib/widget/builder/charts/BChart.php:606-627 | A join side containing '.' is kept. Otherwise it is prefixed with the entity. The result always contains '.'. |
| ChartQuery.JoinFilter | app/lib/widget/builder/charts/BChart.php:602-629 | The filter's operator is the join's, or "=" for a two-element join. Both sides are qualified, and the right side is marked unescaped. |
| ChartQuery.Entities | app/lib/widget/builder/charts/BChart.php:592-596 | The joined tables in order, then the entity exactly when no join names it. The entity is always included. |
| ChartQuery.EntitiesNoRepeat | app/lib/widget/builder/charts/BChart.php:592-598 | Distinct joined tables give a FROM list without repetitions. |
| ChartQuery.GroupTerms | app/lib/widget/builder/charts/BChart.php:642-658 | A bare group field is selected as entity.field under its own name and grouped by entity.field. A qualified field or expression is aliased fieldGroupN, N being its position. |
| ChartQuery.Groups | app/lib/widget/builder/charts/BChart.php:634-658 | The GROUP BY terms are the colour alias first when a colour field is set, then one term per group field, in order. |
| ChartQuery.Columns | app/lib/widget/builder/charts/BChart.php:636-694 | The selected columns are the colour column, then each group column, then the aggregate of the qualified value field aliased total. |
| ChartQuery.OrdersWithoutColor | app/lib/widget/builder/charts/BChart.php:666-681 | Without a colour field the ORDER BY is the total term when ordering by value, followed by every GROUP BY term. |
| ChartQuery.OrdersDropColor | app/lib/widget/builder/charts/BChart.php:666-686 | With a colour field and no ordering by value, the colour alias is removed from the ORDER BY. |
| ChartQuery.OrdersDropTotal | app/lib/widget/builder/charts/BChart.php:666-686 | With a colour field and ordering by value, the total term is removed instead. The ORDER BY is then the GROUP BY list, starting with the colour alias. |
| ChartQuery.LoadQuery | app/lib/widget/builder/charts/BChart.php:554-696 | Loading fails exactly when the required-parameter check fails, with the same error. Otherwise it yields the assembled query. |
| ChartColors.ExtractColors | app/lib/widget/builder/charts/BChart.php:705-723 | With two groups, colours are keyed by series, and with one group on a non-bar chart by category; in both cases the last row wins. A one-group bar chart gets the colour list by position. The rows lose their colour column. |
| ChartColors.LoadedColors | app/lib/widget/builder/charts/BChart.php:705-724 | Without a colour field the colours and the rows are unchanged. The rows always end up with the group columns and the total. |
| ChartColors.KeyedColorsLast | app/lib/widget/builder/charts/BChart.php:709 | A key's colour is the colour of the last row with that key. |
| ChartColors.RenamedSeriesUncoloured | app/lib/widget/builder/charts/BChart.php:848-857 | The colours stay keyed by the raw second group while a sub-legend hook renames the series, so a renamed label that matches no raw key is a series without a colour. |
| ChartColors.ColorsCoverSeries | app/lib/widget/builder/charts/BChart.php:707-710 | With two groups and no sub-legend hook, every series label the pivot later produces has a colour, and it is the colour of the series' last row. |
| ChartColors.ColorsCoverCategories | app/lib/widget/builder/charts/BChart.php:715-718 | With one group on a non-bar chart, every category has a colour, and it is the colour of its last row. |
| ChartColors.BarColorsByPosition | app/lib/widget/builder/charts/BChart.php:711-714 | In a one-group bar chart, bar i gets the colour of result row i, and row i keeps its other columns. |
| ChartTooltip.TransformTail | app/lib/widget/builder/charts/BChart.php:759-769 | A column's values after its label, each passed through the value hook when there is one, unchanged otherwise. |
| ChartTooltip.FormatTooltip | app/lib/widget/builder/charts/BChart.php:742-797 | There is one label formatter per side-table label: pie and donut formatters read value 0, others read the point index. The tooltip reads by series or by point. A contents function is set only for pie or donut with a tooltip function and no value hook. The chart label is set only for pie or donut without percentages. |
| ChartTooltip.SideTableEntries | app/lib/widget/builder/charts/BChart.php:757-771 | The tooltip table has exactly the column labels as keys. A label's entry is the transformed tail of the last column with that label. |
| ChartTooltip.SideTableIsTails | app/lib/widget/builder/charts/BChart.php:757-771 | Without a value hook and with distinct labels, each label maps to its own column's values. |
| ChartTooltip.LabelShowsPoint | app/lib/widget/builder/charts/BChart.php:773-777 | For bar and line charts, the label formatter of a series at point i shows exactly the value drawn at that point. |
| Pivot.FoldPivotIsSpec | app/lib/widget/builder/charts/BChart.php:846-863 | The source loop over the result rows builds exactly the reference pivot: one row per series in first-seen order, each cell holding the last total of its pair, or zero. |
| Pivot.HitIsLastWrite | app/lib/widget/builder/charts/BChart.php:862 | When several rows fall on the same cell, the cell holds the total of the last of them. |
| Pivot.HitWithoutMatch | app/lib/widget/builder/charts/BChart.php:844 | A cell no row falls on keeps the zero it was filled with. |
| Pivot.SortByLabelSorted | app/lib/widget/builder/charts/BChart.php:865 | The sorted series rows are in ascending order of their labels. |
| Pivot.SortByLabel | app/lib/widget/builder/charts/BChart.php:865 | Sorting is a permutation of the series rows. |
| Seqs.DistinctFirstAppearance | app/lib/widget/builder/charts/BChart.php:813 | The distinct categories keep the order in which they first appear. |
| ChartShapes.SearchLabelsPlace | app/lib/widget/builder/charts/BChart.php:813-833 | The doubled bar label list and the plain line list both place every category where the distinct list has it. |
| ChartShapes.CategoryLists | app/lib/widget/builder/charts/BChart.php:813-833 | Bar labels repeat the distinct categories once per category, and line labels list them once. Without a legend hook the line axis shows the categories. The bar axis starts with the line axis. |
| ChartShapes.LegendTexts | app/lib/widget/builder/charts/BChart.php:824-831 | Each category's axis text is the legend hook's result, or the raw category without a hook. |
| ChartShapes.TwoGroupIsSortedSpec | app/lib/widget/builder/charts/BChart.php:838-867 | The series rows of a two-group chart are the reference pivot, sorted by label. |
| ChartShapes.TwoGroupPivot | app/lib/widget/builder/charts/BChart.php:838-867 | There is one row per distinct series key, each with one cell per category holding its pair's value. The labels are strictly ascending. |
| ChartShapes.CellIsHit | app/lib/widget/builder/charts/BChart.php:928-955 | A line or bar series cell holds the value of its series and category. |
| ChartShapes.MissingPairIsZero | app/lib/widget/builder/charts/BChart.php:932-950 | A category and series pair that no row has leaves 0 in its cell. |
| ChartShapes.LaterRowWins | app/lib/widget/builder/charts/BChart.php:946-950 | The last result row for a pair determines its cell. |
| ChartShapes.SeriesLabelColumn | app/lib/widget/builder/charts/BChart.php:871-874 | The label column of the series rows lists every series key exactly once, in strictly ascending order. |
| ChartShapes.SingleSeries | app/lib/widget/builder/charts/BChart.php:876-882 | A one-group chart has a single series: the label value, or else the first group field's name, then every total in row order. |
| ChartShapes.SingleSeriesShape | app/lib/widget/builder/charts/BChart.php:959-965 | With distinct categories, point j of the single series is the total of category j. |
| ChartShapes.RelabelSlices | app/lib/widget/builder/charts/BChart.php:982-1000 | Pie slices keep their values. Only the label changes, to the legend hook's result, and only when there is a hook. |
| ChartOptions.LabelFormatRule | app/lib/widget/builder/charts/BChart.php:1017 | The chart label has no format exactly for percentages. Bar and line charts use the display function, and pie and donut charts read their first value. |
| ChartOptions.DataTypeRule | app/lib/widget/builder/charts/BChart.php:1013 | The series type is area-spline or area when areas are on, and the chart kind's name otherwise. |
| ChartOptions.TitleRule | app/lib/widget/builder/charts/BChart.php:1032-1035 | The title is in the options exactly when it is set and no panel shows it. |
| ChartOptions.ColorRule | app/lib/widget/builder/charts/BChart.php:1037-1048 | Non-empty colours go to the per-series colour map with a colour field, and to the pattern without one. They never go to both. |
| ChartOptions.ColorFunctionRule | app/lib/widget/builder/charts/BChart.php:1037-1048 | A one-group bar chart always colours with changeColor. Other charts use the per-series lookup exactly when colours and a colour field are set. |
| ChartOptions.LegendRule | app/lib/widget/builder/charts/BChart.php:876-887 | One-group bar and line charts hide the legend. Every other chart keeps the configured setting. |
| ChartOptions.AxisRule | app/lib/widget/builder/charts/BChart.php:805-969 | Only bars get the width ratio. Bar and line charts get the direction and a category axis with the category texts. Pie and donut charts get neither. |
| ChartOptions.TickRule | app/lib/widget/builder/charts/BChart.php:1063-1094 | Ticks are centred for bars and not rotated by default. A rotation replaces the tick and sets the axis height. A legend limit sets the x culling and the y tick count. The grid is on exactly when asked. |
| ChartOptions.StackRule | app/lib/widget/builder/charts/BChart.php:871-874 | Groups are set exactly for stacked bars with two group fields, and then they are the series labels. |
| ChartOptions.StackedGroups | app/lib/widget/builder/charts/BChart.php:871-874 | The stacked group holds every distinct series key once, in strictly ascending order. |
| ChartOptions.TooltipRule | app/lib/widget/builder/charts/BChart.php:742-797 | The tooltip table and the label formatters cover exactly the labels of the drawn series. A contents function exists only for pie and donut charts with a tooltip function and no value hook. |
| ChartOptions.HeightRule | app/lib/widget/builder/charts/BChart.php:1019-1021 | A numeric height set through setSize reaches the options as its plain number. |
| ChartOptions.MakeOptions | app/lib/widget/builder/charts/BChart.php:1009-1095 | The drawn series are the shaped columns of the chart kind. |
| ChartBatches.GroupFailsOnRejected | app/lib/widget/builder/charts/BChart.php:128-138 | Grouping fails exactly when some displayable widget is not a chart class. |
| ChartBatches.GroupIsSpec | app/lib/widget/builder/charts/BChart.php:126-153 | When every displayable widget is a chart, the loop groups the widgets exactly as the reference does. There is one batch per database in first-seen order, holding that database's displayable widgets in order. |
| ChartBatches.GroupedWidgets | app/lib/widget/builder/charts/BChart.php:140-153 | Each database has at most one batch, and a batch holds exactly the displayable widgets naming its database. Every displayable widget with a database is in a batch. |
| ChartBatches.AddToBatch | app/lib/widget/builder/charts/BChart.php:147-152 | A widget is appended to the batch of its database, the other batches unchanged, or opens a new batch at the end for a database not seen yet. |
| ChartBatches.GenerateFails | app/lib/widget/builder/charts/BChart.php:124-167 | Generation succeeds exactly when no displayable widget is rejected and every chart it creates passes the parameter check of its data load. A create failure names the model, the group fields or the value field. |
| ChartBatches.GenerateOpens | app/lib/widget/builder/charts/BChart.php:156-166 | When every create succeeds, one transaction is opened per database of a displayable widget, in first-seen order and never twice, and each is closed. |
| ChartBatches.GenerateStops | app/lib/widget/builder/charts/BChart.php:156-166 | When a create throws, the databases opened so far are the first ones of the full order, and the transaction of the failing widget is never closed. |
| ChartBatches.RunCompletes | app/lib/widget/builder/charts/BChart.php:156-166 | A run in which every create succeeds opens each batch's database in batch order and closes each. |
| ChartBatches.RunStops | app/lib/widget/builder/charts/BChart.php:156-166 | A run in which a create throws stops inside the failing batch: every earlier transaction is closed and the failing one stays open. |
| ChartBatches.RunFailure | app/lib/widget/builder/charts/BChart.php:160-163 | The error a run stops with is one thrown by a create of one of its batches. |
| ChartBatches.TransactionOpens | app/lib/widget/builder/charts/BChart.php:158-165 | A batch's transaction opens its own database and no other, and is closed only when every create in it succeeded. |
| Router.NormalizeUri | lib/mad/rest/Router.php:134 | The URI gets exactly one leading slash, followed by the URI without its leading slashes. |
| Router.FullUrl | lib/mad/rest/Router.php:137-141 | Without a prefix the URL is the normalised URI. Otherwise it is the prefix without trailing slashes, then the URI. |
| Router.AddRoute | lib/mad/rest/Router.php:131-156 | Exactly one route is appended, with the method, full URL, action and active middleware. Earlier routes and the settings are unchanged. |
| Router.GroupPrefix | lib/mad/rest/Router.php:42-47 | An empty prefix keeps the outer one. Otherwise the prefix, without leading slashes, is joined to the outer prefix by a slash, or follows a slash when there is no outer prefix. |
| Router.GroupMiddleware | lib/mad/rest/Router.php:49-51 | A set middleware replaces the outer one. An empty one keeps it. |
| Router.Group | lib/mad/rest/Router.php:35-61 | A group restores the prefix and middleware. It only adds routes after the existing ones. |
| Router.GroupPrefixShape | lib/mad/rest/Router.php:42-47 | Nested groups keep the prefix empty or starting with a slash. A set prefix parameter always yields a non-empty prefix. |
| Router.GroupRoutes | lib/mad/rest/Router.php:35-61 | Routes that a group's callback registers directly, with no nested group, carry the group's combined prefix and middleware, in order. Both settings are restored after the group. |
| Router.GroupPrefixApplies | lib/mad/rest/Router.php:35-61 | Every route registered inside a group with a prefix, nested groups included, has a URL that starts with the group's prefix without its trailing slashes. An inner group can only lengthen the prefix. |
| Router.InnerPrefixExtends | lib/mad/rest/Router.php:41-47 | Inside a prefixed scope, a group's prefix stays set and extends the outer prefix, compared after `rtrim`. |
| Router.ExecFlat | lib/mad/rest/Router.php:131-156 | A sequence of registrations appends its routes in order, each under the current prefix and middleware. |
| Router.ExecMiddleware | lib/mad/rest/Router.php:49-60 | Without nested middleware, every route a callback registers carries the middleware active when it runs. |
| Router.GroupMiddlewareApplies | lib/mad/rest/Router.php:49-55 | Every route registered inside a middleware group, nested groups included, carries that middleware unless an inner group sets its own. |
| Router.GetRoute | lib/mad/rest/Router.php:225-244 | There is no route exactly when none matches method and URL. Otherwise the result is the earliest matching route. |
| Router.LaterRoutesDoNotShadow | lib/mad/rest/Router.php:237-241 | Routes registered later never change an earlier match. They are consulted only when nothing earlier matches. |
| Router.Validate | lib/mad/rest/Router.php:164-171 | The response is 404 "Route not found" exactly when no route matches. Otherwise the matching route handles the request. |
| Router.Execute | lib/mad/rest/Router.php:252-259 | The response is 404 "Route not found" exactly when no route matches. Otherwise the matching route runs. |
| Router.ValidateThenExecute | lib/mad/rest/Router.php:252-259 | Validation and execution agree, and the route executed is the earliest matching route. |
| Permissions.Run | engine.php:9-69 | A token error happens exactly when a token is given and its login fails, carrying the login's message. Nothing happens exactly for an empty request. |
| Permissions.Decide | engine.php:39-67 | A non-empty request is dispatched or denied. A denial carries the logout action exactly when the user is not logged. |
| Permissions.DecideFollowsRules | engine.php:39-67 | A logged user is dispatched exactly for a public class, a public mobile page, or a permitted program whose method is not disabled. A visitor is dispatched exactly for LoginForm or a public class. |
| Permissions.VisitorIgnoresMobilePages | engine.php:59-67 | The public mobile pages do not affect a visitor's decision. |
| Permissions.PublicIgnoresPrograms | engine.php:45-48 | A logged user reaches a public page whatever the session's programs and actions. |
| Permissions.MoreProgramsNeverDeny | engine.php:41-57 | Granting more programs never turns a dispatched request into a denied one. |
| Permissions.DisabledActionDenied | engine.php:49-53 | A method stored as loosely false is denied, even for a permitted program, unless the class is public. |
| Permissions.NullDoesNotDisable | engine.php:49 | A stored null does not count as set, so it never disables a method. |
| Permissions.DefaultsOpenToLogged | engine.php:42 | A default program is dispatched for every logged user unless its method is disabled. |
| Permissions.LoginFormAlwaysOpens | engine.php:39-110 | The login form is dispatched for every session: for a visitor by the visitor rule, and for a logged user as a default program, unless its method is disabled. |
| Permissions.TokenFailureStops | engine.php:15-26 | A failed token login ends the request before any permission decision. |
| Permissions.TokenSessionDecides | engine.php:15-58 | After a successful token login the decision is taken on the session the token opened. |
| Timestamp.Pad2 | app/lib/include/builder/firebaseService.js:1152 | Padding yields only digits, at least two, and exactly two below 100. |
| Timestamp.Pad2RoundTrip | app/lib/include/builder/firebaseService.js:1152 | The padded text reads back as the number. |
| Timestamp.Pad2Injective | app/lib/include/builder/firebaseService.js:1152 | Different numbers pad to different texts. |
| Timestamp.LastTwo | app/lib/include/builder/firebaseService.js:1155 | The result is the last two characters, or the whole of a shorter text. |
| Timestamp.ShortYear | app/lib/include/builder/firebaseService.js:1155 | For a year of at least two digits, the short year is the year modulo 100, zero-padded. |
| Timestamp.Substitute | app/lib/include/builder/firebaseService.js:1159 | A mask letter becomes its field's text. Any other character is copied unchanged. |
| Timestamp.FormatAppend | app/lib/include/builder/firebaseService.js:1159 | Formatting two masks one after the other gives the two formatted texts one after the other. |
| Timestamp.FormatPlain | app/lib/include/builder/firebaseService.js:1159 | A mask without special letters is copied unchanged. |
| Timestamp.DefaultFormat | app/lib/include/builder/firebaseService.js:1148-1162 | The default mask gives dd/mm/YYYY HH:ii:ss with the month counted from 1. |
| Timestamp.DayAndMonthDistinguish | app/lib/include/builder/firebaseService.js:1150-1152 | Different days of the month print differently under d, and different months under m. |
| Timestamp.SameDayEquivalence | app/lib/include/builder/firebaseService.js:1067-1071 | Being the same day is reflexive, symmetric and transitive. |
| Timestamp.SameDaySameText | app/lib/include/builder/firebaseService.js:1067-1071 | Two moments of the same day print identically under any mask without time letters. |

## Left out

- Rendering (`show`, the panel and the HTML container) and the JSON encoding of the options are left out. The model stops at the option tree and the tooltip table, which are the data that get encoded.
- SQL execution, `TTransaction` and the connection are left out. The query is modelled as the strings it is built from. `generate` records "open", "create" and "close" as events, and stops at the first `create` that throws, leaving that transaction open.
- The driver check of `loadData` is a flag on the query settings, since it reads the live connection's driver name.
- PHP loose comparison is left out of `in_array`, `array_search`, `array_unique`, `sort` and array keys. Cells compare exactly, and integer-like string keys are not merged with integers. The series rows are sorted by label with a fixed total order (numbers before texts), because their labels are distinct.
- ChartBatches.CreateError: `create` is modelled for `BChart` only, as the parameter check of `loadData`. The `create` of `BTableChart` and `BIndicator` is not part of this model and is treated as succeeding. Failures of the SQL statement itself are not modelled.
- ChartColors.ColorsCoverSeries: holds only without a sub-legend hook. With one, the series are renamed after the colours were keyed by the raw second group, and `ChartColors.RenamedSeriesUncoloured` shows a renamed series that gets no colour.
- The palette the constructor installs is left out. The colour list is a chart setting.
- `setTotal`, `setType` and `setFieldGroup` report their error as a value rather than throwing with a translated message. `loadData`'s "is required" messages are modelled the same way.
- `canDisplay`'s read of the request's method is a parameter of the model.
- Router: the URL pattern matching of `Route::matchUrl` is a parameter. The middleware handling after a successful `validate` and the controller dispatch after `execute` are left out. Their handlers run outside the router's state.
- Router.GetRoute: compares methods exactly, not with PHP's loose `==`.
- Permissions: the session, the configuration and the mobile-token login are inputs. The language setup, `TMessage` and `http_response_code` become the `Decision` value. The `$debug` argument only travels to the dispatcher and is left out.
- Permissions.Decide: the session's program list is a set of names, so a program stored with a null value counts as granted. PHP's `isset` would treat it as absent.
- Timestamp: building the `Date` from a timestamp, time zones and invalid dates (NaN fields) are left out. The model starts from the date's fields.
- Timestamp.ShortYear: states the short year only for years of at least two digits. For a one-digit year the source's result is the single digit, and `LastTwo` models that case exactly.
