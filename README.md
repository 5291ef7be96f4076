# Admin panel core, modelled in Dafny

This project models the client-side logic of a React admin panel for a
clothing marketplace. Admins manage these through the panel:

- categories, sub-categories and measurement masters;
- measurement mappings;
- app banners, designers, spotlights and two kinds of deals;
- vendors, customers, orders and products.

Every screen keeps its form, its uploaded image and its table in component
state. It edits that state in event handlers and sends multipart or JSON
requests. The model covers:

- **Dependent selections.** A deal's type narrows the vendors, a vendor
  narrows the products, a gender narrows categories and measurements, and a
  category narrows sub-categories. Each change clears the fields downstream
  of it. The stored vendor name is looked up backwards on edit.
- **Optimistic table updates.** After a save the returned record replaces
  the edited row or is put first with `total + 1`. After a delete the row is
  filtered out with `total - 1`. The `LocalTable.Table` class is shared by
  the screens that do this.
- **Image validation.** MIME type, byte size and exact pixel size are
  checked in that order, with each screen's own rule. Other validators are
  the measurement master's missing sizes, the mapping's non-empty guard and
  the five-banner limit.
- **State machines.**
  - The vendor list's bulk-action reducer and checkboxes.
  - The order list's select-one / select-all.
  - The sidebar accordion.
  - The staged and committed filters of the customer and vendor lists.
- **Derivations and serialisers.**
  - The vendor CSV export.
  - The product feed's query string, which is built with `+=`.
  - The order progress steps and totals.
  - The product page's price and stock state.
  - The size-guide table.
  - The vendor profile's image URL and labels.
  - The customizable-badge wrapper.

JavaScript values are modelled by `Js.JsVal` (undefined, null, booleans,
integers, strings). With it the model reproduces `||`, `String(x)`,
`Number(x)` and the difference between `===` and a comparison after
conversion. Screens whose handlers update state are classes whose methods
state their whole new state. The logic of those handlers (filters, labels,
request bodies, validation) is made of pure functions, and lemmas state what
the source promises about them.

## Model

| member | source | states |
|---|---|---|
| Js.FullWidthSpaceIsBlank | src/components/pages/vendor/VendorList.jsx:189 | a reason made of one full-width space U+3000 trims to the empty string, so it counts as no reason |
| Js.PaddedNumeral | src/components/pages/CurrentDeals.jsx:60 | `Number(a + String(n) + b)` is `n` for every integer `n` and any white space or line terminator characters `a` and `b`, Unicode ones included |
| Js.TrimPadded | src/components/pages/vendor/VendorList.jsx:189 | `trim()` removes one white space character on each side of a string that neither starts nor ends with white space, and leaves that string itself unchanged |
| AppBanner.BannerRuleAccepts | src/components/pages/AppBanner.jsx:106-134 | a banner image is accepted exactly when it is at most 5 MiB and exactly 960×576, with no type check; an oversized file gets the size message |
| AppBanner.SearchFieldOptions | src/components/pages/AppBanner.jsx:239 | the target dropdown offers products for navigate "1", vendors for "2" and nothing otherwise |
| AppBanner.TargetText | src/components/pages/AppBanner.jsx:93-100 | the filled-in target text is the `product_name \|\| shop_name` of the first item whose id string-equals the chosen value, products for "1" and vendors otherwise, or "" when none matches |
| AppBanner.ProductTargetNamed | src/components/pages/AppBanner.jsx:93-100 | choosing a product with a unique id fills in that product's own name |
| AppBanner.NavigateLabel | src/components/pages/AppBanner.jsx:235 | "1" is labelled Product, "2" Shop/Designer, anything else N/A |
| AppBanner.TypeLabel | src/components/pages/AppBanner.jsx:236 | the label has the same length as the value, its first character upper-cased and the rest kept |
| AppBanner.FifthCreateBlocksSixth | src/components/pages/AppBanner.jsx:142-146 | with four banners loaded a create goes through, and the fifth row then blocks the next create, while an edit is never blocked |
| AppBanner.BannerScreen.constructor | src/components/pages/AppBanner.jsx:14-43 | the screen starts with an empty form, no image, the fetched rows and no pending delete |
| AppBanner.BannerScreen.SetType | src/components/pages/AppBanner.jsx:101-102 | choosing the banner type changes only the type |
| AppBanner.BannerScreen.ChangeNavigate | src/components/pages/AppBanner.jsx:90-92 | changing navigate clears the target id and text and keeps the type and edited id |
| AppBanner.BannerScreen.ChooseTarget | src/components/pages/AppBanner.jsx:93-100 | choosing a target sets its id and the `TargetText` of the current navigate |
| AppBanner.BannerScreen.ChooseImage | src/components/pages/AppBanner.jsx:106-134 | no file clears the image; an accepted file is held with its preview; a rejected one is dropped with the first failing rule's message |
| AppBanner.BannerScreen.Submit | src/components/pages/AppBanner.jsx:136-155 | no request exactly when a create meets five loaded banners; otherwise the body sends the form's type, navigate, searchfield_id and searchfield_text values under those keys, then the chosen image as img_path, then `_method=PUT` when editing, and nothing else |
| AppBanner.BannerScreen.ResetForm | src/components/pages/AppBanner.jsx:211-219 | the form, the image and the edited id return to their initial values |
| AppBanner.BannerScreen.Saved | src/components/pages/AppBanner.jsx:167-177 | a saved edit replaces the rows carrying the edited id with the total kept; a saved create is put first with the total raised by one; the form is reset |
| AppBanner.BannerScreen.Edit | src/components/pages/AppBanner.jsx:221-232 | editing loads the row's fields, with navigate and target id as strings and the stored image behind the image base as preview |
| Category.LabelOf | src/components/pages/Category.jsx:174-176 | the label found is that of an entry whose value is the key, and there is none exactly when no entry has that value |
| Category.TypeLabels | src/components/pages/Category.jsx:18-24 | each of the values 1–5, as a number or a string, gets its `CATEGORY_TYPES` label, and every other value is "Unknown" |
| Category.CategoryRuleAccepts | src/components/pages/Category.jsx:82-114 | a category image is accepted exactly when it is JPEG/PNG, at most 2 MiB and 720×851, and each failure gets its own message in the order type, size, dimensions |
| Category.EditedType | src/components/pages/Category.jsx:148-156 | the edited type is `String(category_type \|\| type \|\| "")` |
| Category.EditedName | src/components/pages/Category.jsx:148-156 | the edited name is `category_name \|\| name` |
| Category.CategoryScreen.constructor | src/components/pages/Category.jsx:39-52 | the screen starts with an empty form and no pending delete |
| Category.CategoryScreen.ResetForm | src/components/pages/Category.jsx:71-80 | the form empties and the pending delete is kept |
| Category.CategoryScreen.ChooseImage | src/components/pages/Category.jsx:82-114 | no file clears the image; an accepted file is held with its preview; a rejected one is dropped with its message |
| Category.CategoryScreen.FormBody | src/components/pages/Category.jsx:120-123 | the body holds category_type and category_name with the form's values, then img_path carrying the held file only when a validated file is held |
| Category.CategoryScreen.Submit | src/components/pages/Category.jsx:116-145 | a submit runs the update mutation of the edited id exactly when an id is being edited, else the create mutation, both with `FormBody` |
| Category.CategoryScreen.SaveReplied | src/components/pages/Category.jsx:124-140 | a reply reporting success resets the form, and any other reply leaves it untouched |
| Category.CategoryScreen.Edit | src/components/pages/Category.jsx:148-156 | editing loads the id, `EditedType` and `EditedName`, and shows the stored image when there is one; a submit after it updates that id |
| Category.CategoryScreen.AskDelete | src/components/pages/Category.jsx:159-162 | the id waits for confirmation and the form is untouched |
| Category.CategoryScreen.ConfirmDelete | src/components/pages/Category.jsx:164-172 | without a pending id nothing is deleted; otherwise exactly that id is deleted and then cleared |
| CurrentDeals.CurrentDealsScreen.constructor | src/components/pages/CurrentDeals.jsx:12-40 | the screen starts with an empty form and the fetched rows |
| CurrentDeals.CurrentDealsScreen.ChangeType | src/components/pages/CurrentDeals.jsx:118-121 | changing the type clears name, vendor and product, so no product is offered |
| CurrentDeals.CurrentDealsScreen.ChooseVendor | src/components/pages/CurrentDeals.jsx:122-136 | a known vendor id sets the vendor, its strict display name and clears the product, while an unknown id changes nothing |
| CurrentDeals.CurrentDealsScreen.ChooseProduct | src/components/pages/CurrentDeals.jsx:138-140 | only the product id changes |
| CurrentDeals.CurrentDealsScreen.ResetForm | src/components/pages/CurrentDeals.jsx:202-206 | the form and the edited id return to empty |
| CurrentDeals.CurrentDealsScreen.Saved | src/components/pages/CurrentDeals.jsx:164-170 | the returned record replaces the edited rows, or is put first with total + 1, and the form is reset |
| CurrentDeals.CurrentDealsScreen.Edit | src/components/pages/CurrentDeals.jsx:208-227 | editing loads type and name as stored, the vendor id through the strict reverse lookup and the product id as a string, so a submit then updates the edited id with those values |
| CurrentDeals.CurrentDealsScreen.Request | src/components/pages/CurrentDeals.jsx:148-158 | the body is type, name and product id from the form (no vendor id), sent as a PUT of the edited id exactly when editing, else as a POST |
| CustomerList.CustomerListScreen.constructor | src/components/pages/customer/CustomerList.jsx:9-21 | the list starts with no filters on page 1 |
| CustomerList.CustomerListScreen.PageChange | src/components/pages/customer/CustomerList.jsx:39-41 | only the committed page changes |
| CustomerList.CustomerListScreen.Search | src/components/pages/customer/CustomerList.jsx:45-48 | the term is staged and committed at once on page 1, keeping the committed dates and the staged dates |
| CustomerList.CustomerListScreen.DateChange | src/components/pages/customer/CustomerList.jsx:50-53 | only the named staged date changes and nothing is committed |
| CustomerList.CustomerListScreen.ApplyFilters | src/components/pages/customer/CustomerList.jsx:55-63 | the staged term and dates become the committed query, on page 1 |
| CustomerList.CustomerListScreen.ResetFilters | src/components/pages/customer/CustomerList.jsx:65-75 | staged and committed filters are emptied on page 1, and a second reset changes nothing |
| Deals.TargetType | src/components/pages/CurrentDeals.jsx:58 | the vendor type asked for is 2 exactly for the deal type "Designer", and 1 otherwise |
| Deals.FilteredVendors | src/components/pages/CurrentDeals.jsx:55-65 | no type offers no vendor; otherwise a vendor is offered exactly when `Number(vendor_type)` is the target type, in fetched order and as often as it was fetched |
| Deals.FilteredProducts | src/components/pages/CurrentDeals.jsx:68-76 | no vendor offers no product; otherwise a product is offered exactly when its vendor id string-equals the chosen one, in fetched order and as often as it was fetched |
| Deals.FindVendor | src/components/pages/SuperSaveDeals.jsx:130 | the vendor found is the first that string-equals the id, and none is found only when no vendor string-equals it |
| Deals.DisplayName | src/components/pages/SuperSaveDeals.jsx:134-135 | a vendor with `Number(vendor_type) === 2` is stored under its username, anyone else under its shop name |
| Deals.ReverseLookup | src/components/pages/SuperSaveDeals.jsx:256-264 | when some vendor matches the stored name (a designer by username, a shop by shop name, after `Number`), the id of the first such vendor; "" when none matches |
| Deals.ProductName | src/components/pages/SuperSaveDeals.jsx:276-279 | when some product's id string-equals the given one, the name of the first such product; "N/A" when none does |
| Deals.OfferedVendorIsShopOrDesigner | src/components/pages/SuperSaveDeals.jsx:65-74 | every vendor the type filter offers is a shop or a designer |
| Deals.ReverseLookupRecoversVendor | src/components/pages/SuperSaveDeals.jsx:256-264 | the display name stored for a shop or designer leads the edit back to that vendor's id, provided no other vendor has that display name |
| Deals.MatchedNameIsDisplayName | src/components/pages/SuperSaveDeals.jsx:256-259 | a vendor the edit test matches has the tested name as its display name |
| Deals.ChooseSaveEditRoundTrip | src/components/pages/SuperSaveDeals.jsx:128-143 | a vendor chosen from the filtered dropdown and saved under its display name is found again on edit with a string-equal id, given distinct display names |
| Deals.DisplayNameStrict | src/components/pages/CurrentDeals.jsx:129 | the strict screen stores the username only for the number 2 and the shop name otherwise |
| Deals.ReverseLookupStrict | src/components/pages/CurrentDeals.jsx:213-217 | when some vendor matches under the strict `=== 2` / `=== 1` tests, the id of the first such vendor; "" when none does |
| Deals.StrictLookupRecoversNumberTyped | src/components/pages/CurrentDeals.jsx:129 | for a vendor whose `vendor_type` is the number 1 or 2, the strictly chosen display name leads the strict lookup back to its id, when no other vendor matches that name |
| Deals.StrictLookupLosesStringTypedDesigner | src/components/pages/CurrentDeals.jsx:129 | a designer sent with vendor_type "2" is offered, stored under its shop name and not found again by the strict lookup, while the `Number` version finds it |
| Designer.DesignerRuleAccepts | src/components/pages/Designer.jsx:108-139 | a designer image is accepted exactly when it is JPEG/PNG/SVG, at most 2 MiB and 449×449 |
| Designer.UsernameFor | src/components/pages/Designer.jsx:95-102 | the filled-in name is the username of the first vendor whose id string-equals the choice, or "" when none does |
| Designer.ChosenDesignerNamed | src/components/pages/Designer.jsx:95-102 | choosing a vendor with a unique id fills in its own username |
| Designer.DesignerScreen.constructor | src/components/pages/Designer.jsx:14-43 | the screen starts with an empty form, the fetched rows and no pending delete |
| Designer.DesignerScreen.ChooseDesigner | src/components/pages/Designer.jsx:95-102 | choosing a designer sets its id and `UsernameFor` it, leaving title and rating |
| Designer.DesignerScreen.SetTitle | src/components/pages/Designer.jsx:104 | only the title changes |
| Designer.DesignerScreen.SetRating | src/components/pages/Designer.jsx:104 | only the rating changes |
| Designer.DesignerScreen.ChooseImage | src/components/pages/Designer.jsx:108-139 | no file clears the image; an accepted file is held with its preview; a rejected one is dropped with its message |
| Designer.DesignerScreen.FormBody | src/components/pages/Designer.jsx:146-153 | the body sends the form's designer_id, designer_name, designer_title and designer_rating values under those keys, then the chosen image as img_path, then `_method=PUT` when editing, and nothing else |
| Designer.DesignerScreen.ResetForm | src/components/pages/Designer.jsx:203-211 | the form, image and edited id return to empty |
| Designer.DesignerScreen.Saved | src/components/pages/Designer.jsx:165-171 | the returned record replaces the edited rows, or is put first with total + 1, and the form is reset |
| Designer.DesignerScreen.Edit | src/components/pages/Designer.jsx:213-224 | editing loads the row with the designer id as a string and the stored image as preview |
| Spotlight.FileRuleAccepts | src/components/pages/Spotlight.jsx:116-143 | a spotlight file is accepted exactly when it is JPEG/PNG/SVG and at most 2 MiB, with no pixel check; a wrong type gets the format message |
| Spotlight.ShopNameFor | src/components/pages/Spotlight.jsx:102-109 | the filled-in shop name is that of the first vendor whose id string-equals the choice, or "" when none does |
| Spotlight.ChosenShopNamed | src/components/pages/Spotlight.jsx:102-109 | choosing a vendor with a unique id fills in its own shop name |
| Spotlight.Body | src/components/pages/Spotlight.jsx:151-160 | the body sends shop_id, shop_name, price and title with the given values, then the background file as img_path, the logo file as brand_logo, and `_method=PUT` when editing, and nothing else |
| Spotlight.SpotlightScreen.constructor | src/components/pages/Spotlight.jsx:14-50 | the screen starts with an empty form, two distinct image fields, the fetched rows and no pending delete |
| Spotlight.SpotlightScreen.ChooseShop | src/components/pages/Spotlight.jsx:102-109 | choosing a shop sets its id and `ShopNameFor` it, leaving price and title |
| Spotlight.SpotlightScreen.SetPrice | src/components/pages/Spotlight.jsx:110-111 | only the price changes |
| Spotlight.SpotlightScreen.SetTitle | src/components/pages/Spotlight.jsx:110-111 | only the title changes |
| Spotlight.SpotlightScreen.ChooseBackground | src/components/pages/Spotlight.jsx:116-143 | the background follows the file rule and the logo is untouched |
| Spotlight.SpotlightScreen.ChooseLogo | src/components/pages/Spotlight.jsx:116-143 | the logo follows the file rule and the background is untouched |
| Spotlight.SpotlightScreen.FormBody | src/components/pages/Spotlight.jsx:151-160 | the body sends the form's shop_id, shop_name, price and title values, then the held background file as img_path, the held logo file as brand_logo, and `_method=PUT` when editing, and nothing else |
| Spotlight.SpotlightScreen.ResetForm | src/components/pages/Spotlight.jsx:210-221 | the form, both files, previews and errors and the edited id return to empty |
| Spotlight.SpotlightScreen.Saved | src/components/pages/Spotlight.jsx:172-178 | the returned record replaces the edited rows, or is put first with total + 1, and the form is reset |
| Spotlight.SpotlightScreen.Edit | src/components/pages/Spotlight.jsx:223-237 | editing loads the row with the shop id as a string, and each stored image behind the image base as its preview; both files and both errors are kept |
| Subcategory.TypeLabel | src/components/pages/Subcategory.jsx:247-249 | "1" is Mens Wear, "2" Women Wear, "3" Kids Wear, "4" Unisex Wear, and a value that is not a category type is "N/A", comparing `String(v)` |
| Subcategory.FilteredCategories | src/components/pages/Subcategory.jsx:59-69 | no type offers no category; otherwise a category is offered exactly when its `type \|\| category_type` string-equals the chosen type, in fetched order and as often as it was fetched |
| Subcategory.FindCategory | src/components/pages/Subcategory.jsx:167-182 | the category found is the first that string-equals the id, and none is found only when no category does |
| Subcategory.ImageRuleAccepts | src/components/pages/Subcategory.jsx:120-142 | a sub-category image is accepted exactly when it is JPEG/PNG and at most 2 MiB; an oversized one gets the size message |
| Subcategory.NewTableRecord | src/components/pages/Subcategory.jsx:167-182 | the local row holds the form's name, type and category id over the reply's fields, and the reply's category relation or else the local lookup |
| Subcategory.EditAfterSaveRestoresForm | src/components/pages/Subcategory.jsx:167-182 | saving a form and then editing the row gives back its type, category id and name, when the row's category relation agrees with the form: a category the reply carries has the form's type (when it has one), and without one the category found for the chosen id is one the type filter offers |
| Subcategory.SubcategoryScreen.constructor | src/components/pages/Subcategory.jsx:21-50 | the screen starts with an empty form, the fetched rows and no pending delete |
| Subcategory.SubcategoryScreen.ChangeCategoryType | src/components/pages/Subcategory.jsx:112-118 | changing the type clears the category id and keeps the name |
| Subcategory.SubcategoryScreen.ChangeCategory | src/components/pages/Subcategory.jsx:112-118 | only the category id changes |
| Subcategory.SubcategoryScreen.ChangeName | src/components/pages/Subcategory.jsx:112-118 | only the name changes |
| Subcategory.SubcategoryScreen.ChooseImage | src/components/pages/Subcategory.jsx:120-142 | no file clears the image; an accepted file is held with its preview; a rejected one is dropped with its message |
| Subcategory.SubcategoryScreen.FormBody | src/components/pages/Subcategory.jsx:149-155 | the body sends the form's category_type, category_id and name values under those keys, then the chosen image as img_path, then `_method=PUT` when editing, and nothing else |
| Subcategory.SubcategoryScreen.ResetForm | src/components/pages/Subcategory.jsx:225-233 | the form, image and edited id return to empty |
| Subcategory.SubcategoryScreen.Saved | src/components/pages/Subcategory.jsx:184-189 | the locally built `NewTableRecord` replaces the edited rows, or is put first with total + 1, and the form is reset |
| Subcategory.SubcategoryScreen.Edit | src/components/pages/Subcategory.jsx:235-245 | editing loads the name, the category's type, the category id as a string and the stored image as preview |
| SuperSaveDeals.LogoRuleAccepts | src/components/pages/SuperSaveDeals.jsx:150-180 | a logo is accepted exactly when it is JPEG/PNG/SVG, at most 2 MiB and 1118×629 |
| SuperSaveDeals.SuperSaveScreen.constructor | src/components/pages/SuperSaveDeals.jsx:14-50 | the screen starts with an empty form and the fetched rows |
| SuperSaveDeals.SuperSaveScreen.ChangeType | src/components/pages/SuperSaveDeals.jsx:125-126 | changing the type clears name, vendor and product and keeps title and price, so no product is offered |
| SuperSaveDeals.SuperSaveScreen.ChooseVendor | src/components/pages/SuperSaveDeals.jsx:128-143 | a known vendor id sets the vendor and its `Number`-typed display name and clears the product; an unknown id changes nothing |
| SuperSaveDeals.SuperSaveScreen.ChooseProduct | src/components/pages/SuperSaveDeals.jsx:145-146 | only the product id changes |
| SuperSaveDeals.SuperSaveScreen.SetTitle | src/components/pages/SuperSaveDeals.jsx:145-146 | only the title changes |
| SuperSaveDeals.SuperSaveScreen.SetPrice | src/components/pages/SuperSaveDeals.jsx:145-146 | only the price changes |
| SuperSaveDeals.SuperSaveScreen.ChooseLogo | src/components/pages/SuperSaveDeals.jsx:150-180 | no file clears the logo; an accepted file is held with its preview; a rejected one is dropped with its message |
| SuperSaveDeals.SuperSaveScreen.FormBody | src/components/pages/SuperSaveDeals.jsx:187-195 | the body sends the form's type, name, product_id, title and price values under those keys, then the chosen logo as brand_logo, then `_method=PUT` when editing, and nothing else |
| SuperSaveDeals.SuperSaveScreen.ResetForm | src/components/pages/SuperSaveDeals.jsx:244-250 | the form, logo and edited id return to empty |
| SuperSaveDeals.SuperSaveScreen.Saved | src/components/pages/SuperSaveDeals.jsx:207-213 | the returned record replaces the edited rows, or is put first with total + 1, and the form is reset |
| SuperSaveDeals.SuperSaveScreen.Edit | src/components/pages/SuperSaveDeals.jsx:252-274 | editing loads the row, recovers the vendor through the `Number` reverse lookup and shows the stored logo or nothing |
| LocalTable.ReplaceById | src/components/pages/AppBanner.jsx:169-170 | editing keeps the length, puts the record at every position whose id is the edited one and leaves every other row as it was |
| LocalTable.RemoveById | src/components/pages/AppBanner.jsx:200 | every kept row was in the table and does not carry the id, and every row not carrying the id is kept |
| LocalTable.RemoveByIdLength | src/components/pages/AppBanner.jsx:200 | a delete drops exactly as many rows as carry the id |
| LocalTable.CountPresent | src/components/pages/AppBanner.jsx:200 | an id carried by some row is counted at least once |
| LocalTable.CountUnique | src/components/pages/AppBanner.jsx:200 | with unique ids an id is counted at most once |
| LocalTable.CountAbsent | src/components/pages/AppBanner.jsx:200 | an id has count zero exactly when no row carries it |
| LocalTable.DeleteOneRow | src/components/pages/AppBanner.jsx:200-201 | with unique ids a delete removes exactly one row when the id is on the page and leaves the rows unchanged otherwise |
| LocalTable.RemoveAbsent | src/components/pages/AppBanner.jsx:200 | deleting an id no row carries leaves the rows unchanged |
| LocalTable.ReplaceKeepsUnique | src/components/pages/AppBanner.jsx:170 | an edit whose returned record keeps the edited id keeps row ids unique |
| LocalTable.RemoveKeepsUnique | src/components/pages/AppBanner.jsx:200 | a delete keeps row ids unique |
| LocalTable.PrependKeepsUnique | src/components/pages/AppBanner.jsx:172 | a create whose returned id is new keeps row ids unique |
| LocalTable.Table.constructor | src/components/pages/AppBanner.jsx:14-43 | a table starts with the fetched rows and total and no pending delete |
| LocalTable.Table.Load | src/components/pages/AppBanner.jsx:14-24 | a fetch replaces the rows and the total |
| LocalTable.Table.Prepend | src/components/pages/AppBanner.jsx:172-173 | a create puts the record first and raises the total by one, so the count of rows on other pages is unchanged |
| LocalTable.Table.Replace | src/components/pages/AppBanner.jsx:170 | an edit replaces the rows carrying the id, keeping the length and the total |
| LocalTable.Table.Remove | src/components/pages/AppBanner.jsx:200-201 | a delete removes the id's rows and lowers the total by one, keeping the count of rows on other pages when the page held exactly one such row |
| LocalTable.Table.Saved | src/components/pages/AppBanner.jsx:169-174 | with an edited id the record replaces its rows with the total kept, and without one it is put first with total + 1 |
| LocalTable.Table.AskDelete | src/components/pages/AppBanner.jsx:193-209 | the delete button makes the id pending and leaves rows and total as they were |
| LocalTable.Table.ConfirmDelete | src/components/pages/AppBanner.jsx:193-209 | nothing happens without a pending id; a successful delete removes its rows and lowers the total, a failed one keeps them; the pending id is then cleared |
| MeasurementMapping.GenderLabel | src/components/pages/MeasurementMapping.jsx:20-26 | "1" is Men, "2" Women, "3" Kids, "4" Unisex, "5" Others, and a value that is not a gender is "Unknown", comparing `String(v)` |
| MeasurementMapping.FilteredCategories | src/components/pages/MeasurementMapping.jsx:70-73 | no gender offers no category; otherwise the categories whose type string-equals the gender, in fetched order, each as often as it was fetched |
| MeasurementMapping.FilteredSubcategories | src/components/pages/MeasurementMapping.jsx:75-78 | no category offers no subcategory; otherwise a subcategory is offered exactly when its category id string-equals the chosen one, in fetched order and as often as it was fetched |
| MeasurementMapping.FilteredMeasurements | src/components/pages/MeasurementMapping.jsx:80-84 | no gender offers no measurement; otherwise a measurement is offered exactly when its type string-equals the gender, whatever the category, in fetched order and as often as it was fetched |
| MeasurementMapping.IdsOrEmpty | src/components/pages/MeasurementMapping.jsx:138-140 | a present id list is kept as it is, even when empty, and a missing one gives `[]` |
| MeasurementMapping.MappingForm.constructor | src/components/pages/MeasurementMapping.jsx:30-39 | the form starts empty and consistent with the fetched lists |
| MeasurementMapping.MappingForm.ResetForm | src/components/pages/MeasurementMapping.jsx:99-106 | the form returns to empty and is consistent |
| MeasurementMapping.MappingForm.SetName | src/components/pages/MeasurementMapping.jsx:242 | only the name changes |
| MeasurementMapping.MappingForm.SelectGender | src/components/pages/MeasurementMapping.jsx:256-261 | choosing a gender clears the category and both selections, which leaves the form consistent |
| MeasurementMapping.MappingForm.SelectCategory | src/components/pages/MeasurementMapping.jsx:279-282 | choosing a category clears only the subcategory selection, does not change the measurements offered and keeps the form consistent |
| MeasurementMapping.MappingForm.ToggleSubcategory | src/components/pages/MeasurementMapping.jsx:87-91 | the subcategory selection toggles the id, the measurement selection is untouched, and toggling an offered id keeps the form consistent |
| MeasurementMapping.MappingForm.ToggleMeasurement | src/components/pages/MeasurementMapping.jsx:93-97 | the measurement selection toggles the id, the subcategory selection is untouched, and toggling an offered id keeps the form consistent |
| MeasurementMapping.MappingForm.Submit | src/components/pages/MeasurementMapping.jsx:108-132 | refused exactly when either selection is empty; otherwise the payload is exactly the form state, sent as an update of the edited id exactly when one is set |
| MeasurementMapping.MappingForm.Edit | src/components/pages/MeasurementMapping.jsx:134-142 | editing loads the row's id, name, category and gender as they are and its id lists through `IdsOrEmpty` |
| MeasurementMaster.MissingSizes | src/components/pages/MeasurementMaster.jsx:103-105 | the missing names are the active sizes without a provided value, reported in active-size order and each as often as it is active |
| MeasurementMaster.NothingMissing | src/components/pages/MeasurementMaster.jsx:103-110 | nothing is missing exactly when every active size has a non-blank value |
| MeasurementMaster.ExtraKeysIgnored | src/components/pages/MeasurementMaster.jsx:103-105 | a value under a name that is not an active size does not change what is missing |
| MeasurementMaster.NormalisedSizesCases | src/components/pages/MeasurementMaster.jsx:154-163 | an object is kept; an array, an unparsable string and two missing fields give `{}`; a string encoding an object gives that object; a falsy `size_values` falls back to `size_details` |
| MeasurementMaster.TypeBadge | src/components/pages/MeasurementMaster.jsx:238-248 | the badge shows `type_name` when set, else 1 Men, 2 Women, 3 Kids, 4 Unisex, and "N/A" for any other type |
| MeasurementMaster.MeasurementForm.constructor | src/components/pages/MeasurementMaster.jsx:27-32 | the form starts reset, with type "1" |
| MeasurementMaster.MeasurementForm.ResetForm | src/components/pages/MeasurementMaster.jsx:80-89 | the form returns to its initial values |
| MeasurementMaster.MeasurementForm.SetSizeValue | src/components/pages/MeasurementMaster.jsx:91-96 | exactly one size key is set to the value and every other key keeps its value; name, type, image, preview and edited id are kept |
| MeasurementMaster.MeasurementForm.ChooseImage | src/components/pages/MeasurementMaster.jsx:68-78 | a chosen file is held with its data URL as preview, and no file changes nothing |
| MeasurementMaster.MeasurementForm.Submit | src/components/pages/MeasurementMaster.jsx:98-145 | missing sizes refuse the submit with exactly those names; then a create without an image is refused; with nothing missing the request is an update of the edited id exactly when an id is being edited, and a create exactly when none is and an image is held; a request carries the form |
| MeasurementMaster.MeasurementForm.SaveReplied | src/components/pages/MeasurementMaster.jsx:120-143 | a reply reporting success resets the form, and any other reply leaves it untouched |
| MeasurementMaster.MeasurementForm.Edit | src/components/pages/MeasurementMaster.jsx:147-168 | editing loads the id, the name or "", the type as a string or "1", the stored image as preview, no file, and the normalised size map, which is the map the view dialog shows for the same row |
| MeasurementMaster.MeasurementForm.ViewedSizes | src/components/pages/MeasurementMaster.jsx:170-183 | a stored object is shown as it is; an array, an unparsable string and two missing fields show no sizes; a string shows the object it encodes; a falsy `size_values` falls back to `size_details` |
| Order.AllSelectedIffEvery | src/components/pages/order/Order.jsx:77 | for a duplicate-free selection of listed ids, the length comparison of `isAllSelected` holds exactly when every order is selected |
| Order.SelectOneTwice | src/components/pages/order/Order.jsx:71-75 | clicking an unselected row twice restores the selection, and clicking a selected row twice keeps the same ids |
| Order.OrderSelection.constructor | src/components/pages/order/Order.jsx:40 | the selection starts empty and valid |
| Order.OrderSelection.SelectAll | src/components/pages/order/Order.jsx:63-69 | checking selects every id in list order, and then the header box shows checked exactly when the list is non-empty; unchecking selects none |
| Order.OrderSelection.SelectOne | src/components/pages/order/Order.jsx:71-75 | the id is removed when selected and appended when not, so it is selected afterwards exactly when it was not before; a listed id keeps the selection valid |
| Order.OrderSelection.Clear | src/components/pages/order/Order.jsx:217 | the selection is emptied |
| OrderDetails.StepIndex | src/components/pages/order/OrderDetails.jsx:88 | the index is that of the step whose id the status strictly equals, and -1 exactly when it equals none |
| OrderDetails.StepIndexOfStatus | src/components/pages/order/OrderDetails.jsx:28-34 | the status "k" is found at position k, while a numeric status or any other value matches no step |
| OrderDetails.CompletedSteps | src/components/pages/order/OrderDetails.jsx:143 | a step is completed exactly when the current step is at or after it, and an unknown status completes none |
| OrderDetails.OneCurrentStep | src/components/pages/order/OrderDetails.jsx:144 | at most one step is current, and one is exactly when the status matches a step |
| OrderDetails.StatusLabel | src/components/pages/order/OrderDetails.jsx:112 | the badge shows the matched step's caption, or "Unknown" |
| OrderDetails.ProcessingStatus | src/components/pages/order/OrderDetails.jsx:28-34 | the status "2" reads Processing with three steps completed and the third current, while the number 2 reads Unknown |
| OrderDetails.AmountOf | src/components/pages/order/OrderDetails.jsx:91-93 | a falsy amount counts as 0 and any other is `Number` of it |
| OrderDetails.Total | src/components/pages/order/OrderDetails.jsx:91-94 | the total is the sum of subtotal and delivery, and is a number exactly when both are |
| OrderDetails.MissingAmountsCountZero | src/components/pages/order/OrderDetails.jsx:91-94 | a missing subtotal and missing extra charges give a total of 0, and a numeric subtotal without extra charges is the total itself |
| Pagination.CategoryPagination | src/components/pages/Category.jsx:61-68 | each of the six fields is the value the server sent when truthy, else its default 1, 1, 0, 10, 0, 0 |
| Pagination.CategoryDefaults | src/components/pages/Category.jsx:61-68 | before any fetch the screen shows page 1 of 1, 10 per page, total 0 and the range 0–0 |
| Pagination.CategoryKeepsServerValues | src/components/pages/Category.jsx:61-68 | when the server sends every field, non-falsy, they are shown as sent |
| Pagination.ListPagination | src/components/pages/customer/CustomerList.jsx:30-36 | page, last page, total, from and to are the sent value when truthy, else 1, 1, 0, 0, 0; no page size is derived |
| Pagination.MeasurementPagination | src/components/pages/MeasurementMaster.jsx:51-65 | with a server page the category defaults apply; without one the whole list is page 1 of 1 from 1 to its length |
| Pagination.MeasurementFallbackOnePage | src/components/pages/MeasurementMaster.jsx:58-65 | without a server page the page size is the list length, or 10 when empty, and never below the total |
| Sidebar.NextOpen | src/components/layout/Sidebar.jsx:9-11 | clicking the open title closes it, and clicking any other title opens that one |
| Sidebar.ToggleTwice | src/components/layout/Sidebar.jsx:9-11 | two clicks on a title leave it closed when it was not open and open when it was, and after one click only the clicked title can be expanded |
| Sidebar.SidebarState.constructor | src/components/layout/Sidebar.jsx:7 | no submenu is expanded at first |
| Sidebar.SidebarState.ToggleMenu | src/components/layout/Sidebar.jsx:9-11 | the clicked title's expansion flips, no other title is expanded, and at most one submenu is open |
| Upload.Validate | src/components/pages/Category.jsx:82-114 | a file is accepted exactly when type, size and dimensions pass, and otherwise the message is that of the first failing check in that order; a file of exactly the limit passes |
| Upload.Keys | src/components/pages/Category.jsx:120-123 | the keys of a body are those of its parts, in order |
| Upload.KeysAppend | src/components/pages/AppBanner.jsx:148-155 | the keys of appended parts are the appended keys |
| Upload.FileIfChosen | src/components/pages/AppBanner.jsx:154 | a file part only when a file is held |
| Upload.MethodOverride | src/components/pages/AppBanner.jsx:155 | a `_method` = PUT field exactly when an id is being edited |
| Upload.ImageField.constructor | src/components/pages/AppBanner.jsx:34-36 | no file, preview or error at first |
| Upload.ImageField.Choose | src/components/pages/AppBanner.jsx:106-134 | no file clears file, preview and error; an accepted file is held with its data URL; a rejected one leaves only the first failing check's message |
| Upload.ImageField.ShowStored | src/components/pages/AppBanner.jsx:229-230 | only the preview changes, to the stored image |
| Upload.ImageField.Clear | src/components/pages/AppBanner.jsx:214-216 | file, preview and error are cleared |
| VendorList.CloseAndCompleteReset | src/components/pages/vendor/VendorList.jsx:27-48 | closing the dialog and completing a submit both return to the initial state from any state |
| VendorList.OpenModalFields | src/components/pages/vendor/VendorList.jsx:20-26 | opening shows the dialog for the given action with empty remarks and keeps the submitting flag |
| VendorList.SingleFieldActions | src/components/pages/vendor/VendorList.jsx:35-50 | typing remarks changes only the remarks, starting a submit only the submitting flag, and an unknown action nothing |
| VendorList.RefusalDisablesConfirm | src/components/pages/vendor/VendorList.jsx:532 | the confirm button is disabled whenever the handler would refuse, and a decline's reason counts exactly when it holds a non-space character |
| VendorList.Request | src/components/pages/vendor/VendorList.jsx:199-211 | the request carries the selected ids; it is a delete exactly for the delete action; otherwise the status is 1 exactly for approve and 2 for the rest, and the remarks are sent exactly for a decline |
| VendorList.StatusText | src/components/pages/vendor/VendorList.jsx:149 | "1" exports as Approved, "2" as Rejected and anything else as Pending |
| VendorList.RowCells | src/components/pages/vendor/VendorList.jsx:143-151 | a line has the seven header columns: the id, the shop name wrapped in quotes, Shop only for the number 1, `mobile_no \|\| ''`, `email \|\| ''`, `StatusText`, and Yes only for the string "1" |
| VendorList.SelectedVendors | src/components/pages/vendor/VendorList.jsx:139 | the exported vendors are exactly the page's vendors whose id is selected, in page order |
| VendorList.SelectedVendorsCounts | src/components/pages/vendor/VendorList.jsx:139 | a selected row is exported as often as it appears on the page, and no other row is exported |
| VendorList.RowLines | src/components/pages/vendor/VendorList.jsx:156 | one line per vendor, its cells joined by commas |
| VendorList.CsvLines | src/components/pages/vendor/VendorList.jsx:154-157 | when no value holds a line break the export splits into the header line and one line per selected vendor, in page order |
| VendorList.RowRoundTrip | src/components/pages/vendor/VendorList.jsx:143-156 | when no value holds a comma a line splits back into its seven cells |
| VendorList.SetFilterChangesOneField | src/components/pages/vendor/VendorList.jsx:116-119 | a filter change sets the named field and keeps the other four |
| VendorList.VendorListScreen.constructor | src/components/pages/vendor/VendorList.jsx:58-82 | no selection, the initial dialog, and empty staged and committed filters on page 1 |
| VendorList.VendorListScreen.Check | src/components/pages/vendor/VendorList.jsx:248 | checking a row appends its id; dialog, search term, filters and query are kept |
| VendorList.VendorListScreen.Uncheck | src/components/pages/vendor/VendorList.jsx:250 | unchecking removes every occurrence of the id and keeps every other id; dialog, search term, filters and query are kept |
| VendorList.VendorListScreen.Export | src/components/pages/vendor/VendorList.jsx:135-157 | nothing is exported exactly when the selection is empty, and otherwise the export is the CSV of the selection |
| VendorList.VendorListScreen.EditStart | src/components/pages/vendor/VendorList.jsx:171-178 | the details page opens exactly when one vendor is selected, for that vendor |
| VendorList.VendorListScreen.InitiateAction | src/components/pages/vendor/VendorList.jsx:180-186 | an empty selection only warns; otherwise the dialog opens for the action; selection, search term, filters and query are kept |
| VendorList.VendorListScreen.Close | src/components/pages/vendor/VendorList.jsx:492 | a close button returns the dialog to its initial state; selection, search term, filters and query are kept |
| VendorList.VendorListScreen.TypeRemarks | src/components/pages/vendor/VendorList.jsx:514 | the remarks box dispatches the new remarks; selection, search term, filters and query are kept |
| VendorList.VendorListScreen.SubmitAction | src/components/pages/vendor/VendorList.jsx:188-211 | a decline without a reason is refused with nothing changed; otherwise the dialog starts submitting and `Request` goes out; selection, search term, filters and query are kept |
| VendorList.VendorListScreen.SubmitSettled | src/components/pages/vendor/VendorList.jsx:214-224 | a 200 or 201 clears the selection and resets the dialog; a thrown call closes the dialog and keeps the selection; any other status changes nothing; search term, filters and query are kept |
| VendorList.VendorListScreen.PageChange | src/components/pages/vendor/VendorList.jsx:107-109 | only the committed page changes; dialog, selection, staged filters and term are kept |
| VendorList.VendorListScreen.Search | src/components/pages/vendor/VendorList.jsx:111-114 | the term is committed on page 1 with the committed filters kept; dialog, selection and staged filters are kept |
| VendorList.VendorListScreen.FilterChange | src/components/pages/vendor/VendorList.jsx:116-119 | only the staged filter changes, nothing is committed; dialog, selection and term are kept |
| VendorList.VendorListScreen.ApplyFilters | src/components/pages/vendor/VendorList.jsx:121-123 | the staged filters and the term become the query, on page 1; dialog and selection are kept |
| VendorList.VendorListScreen.ResetFilters | src/components/pages/vendor/VendorList.jsx:125-130 | staged filters, term and query are emptied, on page 1; the selection and the dialog are kept |
| ProductDetails.Derive | src/components/pages/Product/ProductDetails.jsx:73-82 | the details are loaded with the reply's quantity; out of stock exactly when flagged "1" or the quantity is at most 0; the price is the discount with the actual price struck, or the actual price with nothing struck |
| ProductDetails.StockCases | src/components/pages/Product/ProductDetails.jsx:73-74 | the flag 1 or "1", a quantity of null or "0" mark out of stock, while a missing or positive quantity does not without the flag |
| ProductDetails.ProductPage.constructor | src/components/pages/Product/ProductDetails.jsx:16-32 | no product, loading, no selection and the empty price details |
| ProductDetails.ProductPage.Loaded | src/components/pages/Product/ProductDetails.jsx:39-51 | a successful load sets the product, its first image and, when it has materials, the first material; loading ends either way |
| ProductDetails.ProductPage.SelectSize | src/components/pages/Product/ProductDetails.jsx:128 | only the size changes: product, image, material, price details and loading are kept |
| ProductDetails.ProductPage.SelectMaterial | src/components/pages/Product/ProductDetails.jsx:126 | only the material changes: product, image, size, price details and loading are kept |
| ProductDetails.ProductPage.PriceRequest | src/components/pages/Product/ProductDetails.jsx:60-67 | a price request is made exactly when size, material and product are set, with their ids |
| ProductDetails.ProductPage.PriceReplied | src/components/pages/Product/ProductDetails.jsx:70-82 | a successful reply sets `Derive` of it, and a failed one leaves the details; product, image, selections and loading are kept |
| ProductFeed.Param | src/components/pages/Product/ProductFeed.jsx:26-28 | an empty filter adds nothing and a chosen one adds `key=` its first value |
| ProductFeed.QueryPairs | src/components/pages/Product/ProductFeed.jsx:25-28 | the query has two to five pieces, starting with the page and `per_page=20` |
| ProductFeed.NoFilterQuery | src/components/pages/Product/ProductFeed.jsx:25 | without filters the query is `?page=N&per_page=20` |
| ProductFeed.QueryPrefix | src/components/pages/Product/ProductFeed.jsx:25-28 | every query starts with the page and the page size |
| ProductFeed.QuerySplits | src/components/pages/Product/ProductFeed.jsx:25-28 | when no chosen value holds an `&`, splitting the query at `&` gives back exactly its pieces |
| ProductFeed.AppendedQuery | src/components/pages/Product/ProductFeed.jsx:25-28 | the base query followed by the three conditional `&key=value` appends equals the `&`-join of `QueryPairs` |
| ProductFeed.ShownPrice | src/components/pages/Product/ProductFeed.jsx:100 | a card shows the discount price when set and the actual price otherwise |
| ProductFeed.StruckPrice | src/components/pages/Product/ProductFeed.jsx:101-106 | the actual price is struck through exactly when there is a discount |
| ProductFeed.PriceDisplay | src/components/pages/Product/ProductFeed.jsx:100-106 | a discounted card shows the discount and strikes the actual price; an undiscounted one shows only the actual price |
| ProductFeed.Feed.constructor | src/components/pages/Product/ProductFeed.jsx:9-19 | page 1 of 1, no filters, no cards, in range |
| ProductFeed.Feed.BuildQuery | src/components/pages/Product/ProductFeed.jsx:25-28 | the `+=`-built query is the `&`-join of `QueryPairs` |
| ProductFeed.Feed.Loaded | src/components/pages/Product/ProductFeed.jsx:32-35 | a successful fetch sets the cards and the last page, and a failed one changes nothing |
| ProductFeed.Feed.FilterChange | src/components/pages/Product/ProductFeed.jsx:50-53 | new filters return to page 1 |
| ProductFeed.Feed.Previous | src/components/pages/Product/ProductFeed.jsx:116-122 | one page back unless on page 1, and the page stays in range |
| ProductFeed.Feed.Next | src/components/pages/Product/ProductFeed.jsx:124-130 | one page on unless on the last page, and the page stays in range |
| SizeGuide.Names | src/components/pages/Product/SizeGuide.jsx:40 | the headers are the measurement names, one per measurement, in order |
| SizeGuide.ExtractHeaders | src/components/pages/Product/SizeGuide.jsx:39-42 | headers are set exactly when the chart is non-empty and its first row has measurements, to that row's names |
| SizeGuide.CellValue | src/components/pages/Product/SizeGuide.jsx:167 | a header no measurement has gives undefined, and otherwise the value of the first measurement with that name |
| SizeGuide.DisplayValue | src/components/pages/Product/SizeGuide.jsx:57-62 | a dash exactly for a missing or empty value, and the value as it is in inches |
| SizeGuide.Table | src/components/pages/Product/SizeGuide.jsx:160-175 | one line per row and one cell per header, each the displayed value of that row's measurement under that header; without headers every line is empty and rows need no measurements |
| SizeGuide.FirstRowReadsBack | src/components/pages/Product/SizeGuide.jsx:39-42 | with distinct names the first row reads back its own values under the headers taken from it |
| SizeGuide.Drawer.constructor | src/components/pages/Product/SizeGuide.jsx:10-16 | inches, loading, and no chart, headers or images |
| SizeGuide.Drawer.FetchSettled | src/components/pages/Product/SizeGuide.jsx:25-54 | a successful chart reply sets the chart and, when it yields them, the headers; a successful image reply sets the images; loading ends |
| SizeGuide.Drawer.SetUnit | src/components/pages/Product/SizeGuide.jsx:134-140 | only the unit changes: chart, headers, images and loading are kept |
| VendorDetail.ImageUrl | src/components/pages/vendor/VendorDetail.jsx:36-40 | an empty path gives null, an `http` path is kept, and any other is put behind the image base |
| VendorDetail.ImageUrlIdempotent | src/components/pages/vendor/VendorDetail.jsx:36-40 | with an absolute image base a resolved URL resolves to itself |
| VendorDetail.VendorTypeLabel | src/components/pages/vendor/VendorDetail.jsx:60-64 | the string "1" is Shop, "2" Designer, and anything else Vendor |
| VendorDetail.NumericTypeIsVendor | src/components/pages/vendor/VendorDetail.jsx:60-64 | a numeric vendor type, even 1 or 2, is labelled Vendor |
| VendorDetail.BadgesNeedStringOne | src/components/pages/vendor/VendorDetail.jsx:125 | the verified and customization badges show exactly for the string "1", and not for the number 1 |
| WithCustomizableBadge.FlagSet | src/components/pages/Product/WithCustomizableBadge.jsx:7-8 | 1, "1" and true count as set |
| WithCustomizableBadge.FlagUnsetStrings | src/components/pages/Product/WithCustomizableBadge.jsx:7-8 | the strings "0" and "" do not count as set |
| WithCustomizableBadge.Badges | src/components/pages/Product/WithCustomizableBadge.jsx:14-46 | each badge is drawn exactly when its flag is set, Customizable before Alter |
| WithCustomizableBadge.BadgeChoice | src/components/pages/Product/WithCustomizableBadge.jsx:14-46 | both flags draw both badges, one flag only its own badge, and neither none |
| WithCustomizableBadge.PassedProps | src/components/pages/Product/WithCustomizableBadge.jsx:5 | the wrapped card receives every prop except the two flags, with their values |

## Left out

- Data fetching through the hooks in `src/hooks/` (react-query and axios) is not part of this model: each server reply enters a method as a parameter (a status flag and the returned records).
- The socket connection and its events are not part of this model.
- `FileReader` and `Image` decoding are modelled as one atomic step: the file's MIME type, size and pixel dimensions and the resulting data URL are parameters. The race between two quick picks whose loads finish out of order is not modelled.
- `JSON.parse` is a `parse` parameter that yields `None` where it throws. `JSON.stringify` of request bodies is not modelled: bodies are records or lists of key/value parts.
- `FormData` is modelled as the ordered list of its key/value parts. Binary file contents are not modelled.
- Blob creation, object URLs and the click that downloads the CSV are left out. `VendorList.VendorListScreen.Export` returns the CSV text, and the date in the file name is not modelled.
- Floating point is not modelled:
  - `Number(x)` accepts an optional sign and decimal digits, with the white space and line terminators that `trim()` strips around them (`Js.IsSpace`: ASCII white space, the Unicode space separators, U+2028, U+2029 and U+FEFF). Decimals, exponents, hexadecimal and `Infinity` are not modelled.
  - The inch-to-centimetre conversion of the size guide (SizeGuide.jsx:61) is left opaque as `SizeGuide.Shown.Converted`, which records which cells are converted.
  - The order's progress percentage (OrderDetails.jsx:139) and the product's `discount_percent` arithmetic are left out.
- `Intl` and `toLocale…` formatting of dates and prices is left out. Dates and formatted amounts are passed through as values.
- Debouncing, `setTimeout`, toasts, `scrollTo` and `navigate()` are left out. `VendorList.VendorListScreen.EditStart` returns the id it would navigate to.
- Field errors that the server's validation reply sets (`setErrors`) and the loading and submitting flags of the CRUD screens are left out. Only the client-side validation messages are modelled.
- The material, wear-type and size master screens are not part of this model: their pagination and CRUD handlers are the same as the measurement master's. The dashboard, the sidebar menu data, the login screen, routing and purely presentational components are also not part of this model.
- Tables that the category, measurement master and measurement mapping screens refetch after a save are not updated locally. The model records only the request that is sent.
- Spotlight.FileRuleAccepts: the rule checks only type and size. The width and height that `handleFileChange` is handed are never compared, as in the source, so `Spotlight.SpotlightScreen.ChooseBackground` accepts any dimensions.
- AppBanner.TypeLabel: upper-cases only ASCII letters. `toUpperCase` on other scripts is not modelled.
- AppBanner.TargetText: any `navigate` other than "1" looks up the vendors, as the source does. It does not separate unknown navigate values.
- SizeGuide.CellValue: requires the row to have a `measurements` list. The source throws on a row without one.
- SizeGuide.Drawer: the effect that fetches when `isOpen && productId` is not modelled. `FetchSettled` takes the settled replies directly.
- VendorDetail.ImageUrl: requires a present path to be a string. The source calls `startsWith` on it and would throw otherwise.
- ProductDetails.Derive: coerces quantities with the integer-only `Number` described above.
- ProductDetails.StockCases: states the stock label for integer quantities only, for the same reason.
- MeasurementMaster.NormalisedSizes: a stored string that parses to a JSON scalar gives `{}` in the model. The source keeps the scalar: for the stored string "null" it sets the size map to `null`, and the form's render (MeasurementMaster.jsx:362) and the next submit (MeasurementMaster.jsx:103) then throw. The model does not capture that crash.
- MeasurementMaster.MeasurementForm: its delete dialog (`initiateDelete`/`confirmDelete`) is not written again. It behaves as `Category.CategoryScreen.AskDelete` and `ConfirmDelete`.

## Findings

| source | as written | input that shows it | evidently intended | confidence | as-written member | corrected member |
|---|---|---|---|---|---|---|
| src/components/pages/CurrentDeals.jsx:129 | The vendor dropdown keeps designers by `Number(vendor_type) === 2` (CurrentDeals.jsx:55-65). The stored name picks the username by a strict `vendor_type === 2`, and the lookup back to the vendor on edit (CurrentDeals.jsx:213-216) also compares `vendor_type` strictly with 2 and 1. | The vendor `{id: 7, vendor_type: "2", username: "ann", shop_name: "Ann Studio"}` under deal type "Designer" is offered and saved as "Ann Studio". On edit the strict lookup finds no vendor, so the vendor id stays empty and no products load. | The lookup compares after `Number()`, as SuperSaveDeals.jsx:134 and :256-264 do, so a saved designer is found again. | not executed | Deals.StrictLookupLosesStringTypedDesigner | Deals.ChooseSaveEditRoundTrip |
