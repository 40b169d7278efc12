/**
 * The frontend's status helpers: total maps from a status or type string
 * to the Tailwind classes of its badge, and from a reservation type code to
 * its Japanese display name.
 */
module StatusHelpers {
  /** The badge classes shared by several helpers. */
  const BlueBadge := "bg-blue-500/10 text-blue-700 border-blue-200"
  const GrayBadge := "bg-gray-500/10 text-gray-700 border-gray-200"

  /** getMedicalRecordStatusColor: the two record statuses have badges; anything else has none. */
  function MedicalRecordStatusColor(status: string): (c: string)
    ensures c != "" <==> status == "作成中" || status == "確定済"
    ensures c == BlueBadge <==> status == "作成中"
  {
    match status
    case "作成中" => BlueBadge
    case "確定済" => GrayBadge
    case _ => ""
  }

  /** getHospitalizationStatusColor: 入院中, 退院済 and 予約 have badges; anything else has none. */
  function HospitalizationStatusColor(status: string): (c: string)
    ensures c != "" <==> status in {"入院中", "退院済", "予約"}
  {
    match status
    case "入院中" => BlueBadge
    case "退院済" => GrayBadge
    case "予約" => "bg-green-500/10 text-green-700 border-green-200"
    case _ => ""
  }

  /** getHospitalizationTypeColor: red for 入院, purple for anything else. */
  function HospitalizationTypeColor(kind: string): (c: string)
    ensures c == "bg-red-500/10 text-red-700 border-red-200" <==> kind == "入院"
  {
    if kind == "入院" then "bg-red-500/10 text-red-700 border-red-200"
    else "bg-purple-500/10 text-purple-700 border-purple-200"
  }

  /** The colours of a dashboard column: its dot, its text and its background. */
  datatype ColumnColor = ColumnColor(dot: string, text: string, bg: string)

  /** getDashboardColumnColor: one colour per workflow column; an unknown title looks like 受付予約. */
  function DashboardColumnColor(title: string): (c: ColumnColor)
    ensures c.text == "text-foreground"
    ensures title !in {"受付済", "診療中", "会計待ち", "会計済"} ==> c == ColumnColor("bg-gray-400", "text-foreground", "bg-gray-50/80")
  {
    match title
    case "受付予約" => ColumnColor("bg-gray-400", "text-foreground", "bg-gray-50/80")
    case "受付済" => ColumnColor("bg-blue-500", "text-foreground", "bg-blue-50/60")
    case "診療中" => ColumnColor("bg-yellow-500", "text-foreground", "bg-yellow-50/60")
    case "会計待ち" => ColumnColor("bg-orange-500", "text-foreground", "bg-orange-50/60")
    case "会計済" => ColumnColor("bg-green-500", "text-foreground", "bg-green-50/60")
    case _ => ColumnColor("bg-gray-400", "text-foreground", "bg-gray-50/80")
  }

  /** The five workflow columns have five different dots. */
  lemma ColumnDotsDistinct()
    ensures |{DashboardColumnColor("受付予約").dot, DashboardColumnColor("受付済").dot, DashboardColumnColor("診療中").dot,
              DashboardColumnColor("会計待ち").dot, DashboardColumnColor("会計済").dot}| == 5
  {
  }

  const DefaultReservationColor := "bg-gray-100 text-gray-700 border-gray-200"

  /** getReservationTypeColor: each reservation type, by its English code or a Japanese name, has one colour. */
  function ReservationTypeColor(kind: string): (c: string)
    ensures c == DefaultReservationColor <==>
      kind !in {"treatment", "診療", "checkup", "検診", "検査", "surgery", "手術", "trimming", "トリミング",
                "vaccine", "ワクチン", "入院", "ホテル"}
  {
    match kind
    case "treatment" => "bg-blue-100 text-blue-700 border-blue-200"
    case "診療" => "bg-blue-100 text-blue-700 border-blue-200"
    case "checkup" => "bg-green-100 text-green-700 border-green-200"
    case "検診" => "bg-green-100 text-green-700 border-green-200"
    case "検査" => "bg-green-100 text-green-700 border-green-200"
    case "surgery" => "bg-red-100 text-red-700 border-red-200"
    case "手術" => "bg-red-100 text-red-700 border-red-200"
    case "trimming" => "bg-orange-100 text-orange-700 border-orange-200"
    case "トリミング" => "bg-orange-100 text-orange-700 border-orange-200"
    case "vaccine" => "bg-purple-100 text-purple-700 border-purple-200"
    case "ワクチン" => "bg-purple-100 text-purple-700 border-purple-200"
    case "入院" => "bg-cyan-100 text-cyan-700 border-cyan-200"
    case "ホテル" => "bg-cyan-100 text-cyan-700 border-cyan-200"
    case _ => DefaultReservationColor
  }

  /** getReservationTypeName: the five English codes become Japanese; any other text is shown as it is, and "" as その他. */
  function ReservationTypeName(kind: string): (name: string)
    ensures kind !in {"treatment", "checkup", "surgery", "trimming", "vaccine"} && kind != "" ==> name == kind
    ensures kind == "" ==> name == "その他"
    ensures name != ""
  {
    match kind
    case "treatment" => "診療"
    case "checkup" => "検診"
    case "surgery" => "手術"
    case "trimming" => "トリミング"
    case "vaccine" => "ワクチン"
    case _ => if kind != "" then kind else "その他"
  }

  /** The code and its display name are alike in colour: naming a type never changes its badge. */
  lemma NameKeepsColor(kind: string)
    ensures ReservationTypeColor(ReservationTypeName(kind)) == ReservationTypeColor(kind)
  {
    if kind in {"treatment", "checkup", "surgery", "trimming", "vaccine"} {
      CodesShareColors();
    } else if kind == "" {
      assert ReservationTypeName(kind) == "その他";
      OtherHasDefaultColor();
    } else {
      assert ReservationTypeName(kind) == kind;
    }
  }

  /** Each English code has the colour of its Japanese name. */
  lemma CodesShareColors()
    ensures ReservationTypeColor(ReservationTypeName("treatment")) == ReservationTypeColor("treatment")
    ensures ReservationTypeColor(ReservationTypeName("checkup")) == ReservationTypeColor("checkup")
    ensures ReservationTypeColor(ReservationTypeName("surgery")) == ReservationTypeColor("surgery")
    ensures ReservationTypeColor(ReservationTypeName("trimming")) == ReservationTypeColor("trimming")
    ensures ReservationTypeColor(ReservationTypeName("vaccine")) == ReservationTypeColor("vaccine")
  {
    CodeSharesColor("treatment", "診療", "bg-blue-100 text-blue-700 border-blue-200");
    CodeSharesColor("checkup", "検診", "bg-green-100 text-green-700 border-green-200");
    CodeSharesColor("surgery", "手術", "bg-red-100 text-red-700 border-red-200");
    CodeSharesColor("trimming", "トリミング", "bg-orange-100 text-orange-700 border-orange-200");
    CodeSharesColor("vaccine", "ワクチン", "bg-purple-100 text-purple-700 border-purple-200");
  }

  lemma CodeSharesColor(code: string, name: string, color: string)
    requires ReservationTypeName(code) == name
    requires ReservationTypeColor(name) == color && ReservationTypeColor(code) == color
    ensures ReservationTypeColor(ReservationTypeName(code)) == ReservationTypeColor(code)
  {
  }

  /** その他 and the empty type both get the default colour. */
  lemma OtherHasDefaultColor()
    ensures ReservationTypeColor("その他") == ReservationTypeColor("") == DefaultReservationColor
  {
  }

  /** The translation is idempotent: a display name is its own display name. */
  lemma NameIdempotent(kind: string)
    ensures ReservationTypeName(ReservationTypeName(kind)) == ReservationTypeName(kind)
  {
  }

  /** The English codes are the names the helper tells apart: their display names are distinct. */
  lemma CodeNamesDistinct()
    ensures |{ReservationTypeName("treatment"), ReservationTypeName("checkup"), ReservationTypeName("surgery"),
              ReservationTypeName("trimming"), ReservationTypeName("vaccine")}| == 5
  {
  }

  /** getExaminationStatusColor: 依頼中, 検査中 and 完了 have badges; anything else has none. */
  function ExaminationStatusColor(status: string): (c: string)
    ensures c != "" <==> status in {"依頼中", "検査中", "完了"}
  {
    match status
    case "依頼中" => "bg-yellow-500/10 text-yellow-700 border-yellow-200"
    case "検査中" => "bg-blue-500/10 text-blue-700 border-blue-200"
    case "完了" => "bg-green-500/10 text-green-700 border-green-200"
    case _ => ""
  }

  /** getAccountingStatusColor: 未収, 回収済 and キャンセル have badges; anything else has none. */
  function AccountingStatusColor(status: string): (c: string)
    ensures c != "" <==> status in {"未収", "回収済", "キャンセル"}
  {
    match status
    case "未収" => "bg-red-500/10 text-red-700 border-red-200"
    case "回収済" => "bg-green-500/10 text-green-700 border-green-200"
    case "キャンセル" => GrayBadge
    case _ => ""
  }

  const DefaultTrimmingColor := "bg-gray-100 text-gray-800 border-gray-200"

  /** getTrimmingStatusColor: 完了, 予約 and 進行中 have their own badges; anything else a grey one. */
  function TrimmingStatusColor(status: string): (c: string)
    ensures c == DefaultTrimmingColor <==> status !in {"完了", "予約", "進行中"}
  {
    match status
    case "完了" => "bg-[#E8F5E9] text-[#2E7D32] border-[#E8F5E9]"
    case "予約" => "bg-[#E3F2FD] text-[#1565C0] border-[#E3F2FD]"
    case "進行中" => "bg-[#FFF3E0] text-[#E65100] border-[#FFF3E0]"
    case _ => DefaultTrimmingColor
  }

  const AliveBadge := "bg-[#DDEDEA] text-[#0F7B6C] border-[#DDEDEA] hover:bg-[#DDEDEA]"

  /** getPetStatusColor: a living pet has one badge; every other status shares the other. */
  function PetStatusColor(status: string): (c: string)
    ensures c == AliveBadge <==> status == "生存"
  {
    if status == "生存" then AliveBadge
    else "bg-[#EBECED] text-[#9B9A97] border-[#EBECED] hover:bg-[#EBECED]"
  }

  /** Only 生存 is told apart: any two other statuses look the same. */
  lemma PetStatusOnlyAliveDistinguished(a: string, b: string)
    requires a != "生存" && b != "生存"
    ensures PetStatusColor(a) == PetStatusColor(b)
  {
  }

  const ActiveBadge := "bg-green-50 text-green-700 border-green-200"

  /** getMasterStatusColor: an active master item has one badge; every other status shares the other. */
  function MasterStatusColor(status: string): (c: string)
    ensures c == ActiveBadge <==> status == "active"
  {
    if status == "active" then ActiveBadge
    else "bg-gray-100 text-gray-500 border-gray-200"
  }
}
