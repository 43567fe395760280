/**
 * The records the front-end reads from and writes to its hosted tables,
 * field for field as the TypeScript interfaces declare them. A field the
 * interface marks optional is an `Option`. A database null in a field the
 * interface calls required is represented by "" (or 0.0 for `food_kg`):
 * every use in the pages reads such a field through `x || default`, which
 * treats null and "" (or 0) alike.
 */
module Domain {
  import opened Wrappers

  /** The participant lifecycle literals: registered, waiting, delivered, cancelled. */
  datatype Status = Inscrito | Aguardando | Entregue | Cancelado

  datatype Participant = Participant(
    id: Option<string>,
    name: string,
    phone: string,
    email: string,
    cpf: string,
    unit: string,
    status: Status,
    bracelet_delivered: bool,
    delivery_at: Option<string>,
    food_kg: real,
    food_type: Option<string>,
    user_type: Option<string>,
    admin_id: Option<string>,
    notes: Option<string>,
    created_at: Option<string>)

  datatype Attraction = Attraction(
    id: Option<string>,
    name: string,
    time: string,
    kind: string,              // the interface's `type` field
    is_featured: Option<bool>,
    order: Option<int>,
    created_at: Option<string>)

  datatype EventSettings = EventSettings(
    id: string,
    edition: string,
    year_label: string,
    hero_image_url: string,
    event_date: string,
    subtitle: Option<string>,
    about_text: Option<string>,
    primary_color: string,
    secondary_color: string,
    accent_color: string,
    title_main_color: Option<string>,
    title_highlight_color: Option<string>,
    title_main: Option<string>,
    title_highlight: Option<string>,
    solidarity_title: Option<string>,
    solidarity_description: Option<string>,
    vip_box_title: Option<string>,
    vip_box_description: Option<string>,
    schedule_title: Option<string>,
    footer_address: Option<string>,
    footer_instagram: Option<string>,
    footer_phone: Option<string>,
    footer_copyright: Option<string>,
    show_hero: Option<bool>,
    show_solidarity: Option<bool>,
    show_vip_card: Option<bool>,
    show_solidarity_card: Option<bool>,
    show_schedule: Option<bool>,
    show_footer: Option<bool>,
    hero_cta_text: Option<string>,
    updated_at: Option<string>)

  /** JavaScript truthiness of an optional string: present and not "". */
  predicate Truthy(o: Option<string>)
  {
    o.Some? && o.value != ""
  }

  /** `o || d` on an optional string. */
  function OrElse(o: Option<string>, d: string): (r: string)
  {
    if Truthy(o) then o.value else d
  }

  /** `s || d` on a required string. */
  function NonEmptyOr(s: string, d: string): (r: string)
  {
    if s != "" then s else d
  }
}
