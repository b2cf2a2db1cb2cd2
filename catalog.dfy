/** The reference catalogs of constants.ts: immutable option lists read by
    the selection state and the prompt compiler. */
module Catalog {
  import opened Types
  import opened Options

  const BACKGROUNDS: seq<Background> := [
    Background("white", "Trắng", "bg-white"),
    Background("light-gray", "Xám nhạt", "bg-slate-200"),
    Background("light-blue", "Xanh nhạt", "bg-blue-100"),
    Background("off-white", "Trắng ngà", "bg-slate-50"),
    Background("custom-color", "Tùy chọn", "")
  ]

  const OUTFITS: seq<Outfit> := [
    // Nữ
    Outfit("womens-blouse-white", "Áo sơ mi trắng", "https://i.imgur.com/ETpE4Wa.png", Some(Female), Some(["passport-visa", "cccd", "student", "professional"]), None),
    Outfit("womens-blouse-blue", "Sơ mi xanh pastel", "https://i.imgur.com/plWq8aT.png", Some(Female), Some(["student", "cccd"]), None),
    Outfit("womens-blazer-black", "Áo blazer đen", "https://i.imgur.com/a4YfP0t.png", Some(Female), Some(["passport-visa", "professional"]), None),
    Outfit("womens-suit-gray", "Vest xám", "https://i.imgur.com/b2453vI.png", Some(Female), Some(["passport-visa", "professional"]), None),
    Outfit("womens-suit-navy", "Vest xanh navy", "https://i.imgur.com/8h4A2T6.png", Some(Female), Some(["passport-visa", "professional"]), None),
    Outfit("womens-dress-black", "Váy công sở đen", "https://i.imgur.com/tV3Zw4n.png", Some(Female), Some(["professional"]), None),
    Outfit("womens-turtleneck-black", "Áo len cổ lọ", "https://i.imgur.com/sY7aD2R.png", Some(Female), None, None),
    Outfit("womens-ao-dai-white", "Áo dài trắng", "https://i.imgur.com/83J2b7W.png", Some(Female), Some(["student"]), None),
    // Nam
    Outfit("mens-shirt-white", "Áo sơ mi trắng", "https://i.imgur.com/7P7Lqg0.png", Some(Male), Some(["passport-visa", "cccd", "student", "professional"]), None),
    Outfit("mens-polo-white", "Áo polo trắng", "https://i.imgur.com/Q0AS6G9.png", Some(Male), Some(["student", "cccd"]), None),
    Outfit("mens-suit-black", "Vest đen", "https://i.imgur.com/8n22aSU.png", Some(Male), Some(["passport-visa", "professional"]), None),
    Outfit("mens-suit-navy", "Vest xanh navy", "https://i.imgur.com/DDA62yT.png", Some(Male), Some(["passport-visa", "professional"]), None),
    Outfit("mens-suit-gray", "Vest xám", "https://i.imgur.com/dJ8F8zZ.png", Some(Male), Some(["passport-visa", "professional"]), None),
    Outfit("mens-suit-beige", "Vest màu be", "https://i.imgur.com/eP4zXf5.png", Some(Male), Some(["professional"]), None),
    Outfit("mens-sweater-vest", "Vest gile len", "https://i.imgur.com/M6Lg4gJ.png", Some(Male), Some(["student"]), None),
    Outfit("mens-sweater-gray", "Áo len xám", "https://i.imgur.com/x4xYmUn.png", Some(Male), None, None)
  ]

  const GENDERS: seq<GenderOption> := [
    GenderOption(Female, Female),
    GenderOption(Male, Male)
  ]

  const HAIRSTYLES: seq<Hairstyle> := [
    // no gender: offered to both
    Hairstyle("none", "Giữ nguyên", "https://i.imgur.com/N2a2m4J.png", None),
    // Nữ
    Hairstyle("womens-long-wavy", "Tóc dài gợn sóng", "https://i.imgur.com/p1f7M5M.png", Some(Female)),
    Hairstyle("womens-long-straight", "Tóc dài thẳng", "https://i.imgur.com/oZnO5Q9.png", Some(Female)),
    Hairstyle("womens-short-bob", "Tóc bob ngắn", "https://i.imgur.com/uHo4m8y.png", Some(Female)),
    Hairstyle("womens-pixie-edgy", "Tóc tém pixie cá tính", "https://i.imgur.com/8B9X2vM.png", Some(Female)),
    Hairstyle("womens-curly-layers", "Tóc layer uốn xoăn", "https://i.imgur.com/5A0t2zG.png", Some(Female)),
    Hairstyle("womens-french-bob", "Tóc bob kiểu Pháp", "https://i.imgur.com/tH7zX6Y.png", Some(Female)),
    Hairstyle("womens-wolf-cut", "Tóc wolf-cut hiện đại", "https://i.imgur.com/mR6gN9K.png", Some(Female)),
    // Nam
    Hairstyle("mens-short", "Tóc ngắn gọn gàng", "https://i.imgur.com/jC1N54F.png", Some(Male)),
    Hairstyle("mens-side-part", "Tóc rẽ ngôi", "https://i.imgur.com/o2pYH8W.png", Some(Male)),
    Hairstyle("mens-light-perm", "Tóc uốn xoăn nhẹ", "https://i.imgur.com/9n9s8Z2.png", Some(Male)),
    Hairstyle("mens-two-block", "Tóc two-block layer", "https://i.imgur.com/6E2wJ5H.png", Some(Male)),
    Hairstyle("mens-eboy-curtain", "Tóc E-boy vuốt rủ", "https://i.imgur.com/sK5p8zF.png", Some(Male)),
    Hairstyle("mens-buzz-cut", "Tóc buzz cut", "https://i.imgur.com/yF5wE4R.png", Some(Male))
  ]

  const RETOUCH_OPTIONS: seq<RetouchOption> := [
    RetouchOption("none", "Không", "Giữ nguyên làn da như ảnh gốc."),
    RetouchOption("gentle", "Nhẹ nhàng", "Làm mịn da nhẹ và đều màu, giữ lại kết cấu da tự nhiên."),
    RetouchOption("professional", "Chuyên nghiệp", "Làm mịn da, tạo khối và bắt sáng để làm nổi bật đường nét.")
  ]

  const ASPECT_RATIOS: seq<AspectRatio> := [
    AspectRatio("3x4", "3x4"),
    AspectRatio("4x6", "4x6"),
    AspectRatio("2x3", "2x3"),
    AspectRatio("2x2", "2x2 (Hộ chiếu Mỹ)"),
    AspectRatio("3.5x4.5cm", "3.5cm x 4.5cm (Schengen)"),
    AspectRatio("original", "Ảnh gốc")
  ]

  const COUNTRY_TEMPLATES: seq<CountryTemplate> := [
    CountryTemplate("custom", "Tùy chỉnh", "", ""),
    CountryTemplate("vn-cccd", "Việt Nam (CCCD/Hộ chiếu)", "light-blue", "4x6"),
    CountryTemplate("us-passport", "Mỹ (Hộ chiếu/Visa)", "white", "2x2"),
    CountryTemplate("schengen-visa", "Châu Âu (Visa Schengen)", "light-gray", "3.5x4.5cm")
  ]

  const DOCUMENT_TYPES: seq<DocumentType> := [
    DocumentType("all", "Tất cả trang phục"),
    DocumentType("passport-visa", "Hộ chiếu & Visa"),
    DocumentType("cccd", "CCCD/CMND"),
    DocumentType("student", "Thẻ sinh viên"),
    DocumentType("professional", "Hồ sơ chuyên nghiệp")
  ]

  const LIGHTING_OPTIONS: seq<LightingOption> := [
    LightingOption("on", "Bật"),
    LightingOption("off", "Tắt")
  ]

  const CATALOGS := Catalogs(BACKGROUNDS, OUTFITS, GENDERS, HAIRSTYLES, RETOUCH_OPTIONS,
                             ASPECT_RATIOS, COUNTRY_TEMPLATES, DOCUMENT_TYPES, LIGHTING_OPTIONS)
}
